/** The ${...} language: static checker and resolver. */
module References {
  // Validation runs the checker and preparation the resolver, over the same hand-rolled grammar.

  import opened Documents
  import opened Strings

  // -------------------------------------------------------------------------------------- values

  /** A JSON scalar; a float is known by its printed form and by being zero or not. */
  datatype Value = Str(s: string) | Int(n: int) | Float(text: string, zero: bool) | Truth(b: bool) | Null

  function ToStr(v: Value): string {
    match v
    case Str(s) => s
    case Int(n) => Decimal(n)
    case Float(text, _) => text
    case Truth(b) => if b then "true" else "false"
    case Null => ""
  }

  /** `v in (None, "", False)`: zero counts, because it equals False. */
  predicate Blank(v: Value) {
    v == Null || v == Str("") || v == Truth(false) || v == Int(0) || (v.Float? && v.zero)
  }

  /** What the resolver knows when it runs. */
  datatype Context = Context(params: map<string, Value>, output: (string, string) -> Option<Value>, run: map<string, Value>)

  /** A resolution: a value, an output that is not there (yet), or any other refusal. */
  datatype Out = Ok(value: Value) | Missing | Fail

  // ------------------------------------------------------------------------------- the argument splitter

  datatype Scan = Scan(args: seq<string>, buf: string, depth: int, quote: Option<char>)

  function Feed(st: Scan, ch: char): Scan {
    if st.quote.Some? then
      st.(buf := st.buf + [ch], quote := if ch == st.quote.value then None else st.quote)
    else if ch == '\'' || ch == '"' then st.(buf := st.buf + [ch], quote := Some(ch))
    else if ch == '(' then st.(buf := st.buf + [ch], depth := st.depth + 1)
    else if ch == ')' then st.(buf := st.buf + [ch], depth := st.depth - 1)
    else if ch == ',' && st.depth == 0 then Scan(st.args + [Strip(st.buf)], "", st.depth, None)
    else st.(buf := st.buf + [ch])
  }

  function FeedAll(st: Scan, s: string): Scan
    decreases |s|
  {
    if s == "" then st else FeedAll(Feed(st, s[0]), s[1..])
  }

  function Closed(st: Scan): Option<seq<string>> {
    if st.quote.Some? || st.depth != 0 then None
    else
      var tail := Strip(st.buf);
      if tail != "" || st.args != [] then Some(st.args + [tail]) else Some(st.args)
  }

  /** The top-level comma split, or None when quotes or parentheses do not balance. */
  function SplitArgs(s: string): Option<seq<string>> {
    Closed(FeedAll(Scan([], "", 0, None), s))
  }

  predicate IsQuote(c: char) { c == '\'' || c == '"' }

  /** No quote is open at position k: every quote that opened before k has met its like again before k. */
  ghost predicate Outside(s: string, k: nat)
    requires k <= |s|
    decreases k
  {
    forall i: nat | i < k && IsQuote(s[i]) && Outside(s, i) :: exists j: nat :: i < j < k && s[j] == s[i]
  }

  /** The positions before k where c stands outside quotes. */
  ghost function Marks(s: string, c: char, k: nat): set<nat>
    requires k <= |s|
  {
    set i: nat | i < k && s[i] == c && Outside(s, i)
  }

  /** How many parentheses are open at position k. */
  ghost function Depth(s: string, k: nat): int
    requires k <= |s|
  {
    |Marks(s, '(', k)| - |Marks(s, ')', k)|
  }

  ghost predicate Balanced(s: string) { Outside(s, |s|) && Depth(s, |s|) == 0 }

  /** A top-level comma. */
  ghost predicate IsCut(s: string, i: nat)
    requires i < |s|
  {
    s[i] == ',' && Outside(s, i) && Depth(s, i) == 0
  }

  /** The top-level commas before position k, in order. */
  ghost function Cuts(s: string, k: nat): (r: seq<nat>)
    requires k <= |s|
    ensures forall m: nat | m < |r| :: r[m] < k
    decreases k
  {
    if k == 0 then [] else if IsCut(s, k - 1) then Cuts(s, k - 1) + [k - 1] else Cuts(s, k - 1)
  }

  lemma {:induction false} CutsExact(s: string, k: nat)
    requires k <= |s|
    ensures var r := Cuts(s, k);
            (forall i: nat :: i in r <==> i < k && IsCut(s, i)) && forall m: nat, n: nat | m < n < |r| :: r[m] < r[n]
    decreases k
  {
    hide IsCut;
    if k > 0 {
      CutsExact(s, k - 1);
      var r, front := Cuts(s, k), Cuts(s, k - 1);
      assert r == if IsCut(s, k - 1) then front + [k - 1] else front;
      forall i: nat ensures i in r <==> i < k && IsCut(s, i) {
        if i < k - 1 {
          assert i in r <==> i in front;
        }
      }
    }
  }

  /** Where the m-th piece of the first k characters starts. */
  ghost function ArgStart(s: string, k: nat, m: nat): (i: nat)
    requires k <= |s| && m <= |Cuts(s, k)|
    ensures i <= k && (m < |Cuts(s, k)| ==> i <= Cuts(s, k)[m])
  {
    CutsExact(s, k);
    if m == 0 then 0 else Cuts(s, k)[m - 1] + 1
  }

  /** The m-th piece of s: what stands between two neighbouring top-level commas. */
  ghost function RawArg(s: string, m: nat): string
    requires m <= |Cuts(s, |s|)|
  {
    s[ArgStart(s, |s|, m)..if m < |Cuts(s, |s|)| then Cuts(s, |s|)[m] else |s|]
  }

  /** The arguments before position k are those between its top-level commas. */
  ghost predicate ArgsTo(s: string, k: nat, args: seq<string>, buf: string)
    requires k <= |s|
  {
    var cuts := Cuts(s, k);
    && |args| == |cuts|
    && (forall m: nat | m < |cuts| :: args[m] == Strip(s[ArgStart(s, k, m)..cuts[m]]))
    && buf == s[ArgStart(s, k, |cuts|)..k]
  }

  /** What the scan knows after the first k characters. */
  ghost predicate ScannedTo(s: string, k: nat, st: Scan)
    requires k <= |s|
  {
    && ArgsTo(s, k, st.args, st.buf)
    && st.depth == Depth(s, k)
    && QuoteIs(s, k, st.quote)
  }

  /** quote is the one that is open at position k, if any is. */
  ghost predicate QuoteIs(s: string, k: nat, quote: Option<char>)
    requires k <= |s|
  {
    && (quote.None? <==> Outside(s, k))
    && (quote.Some? ==>
          exists i: nat :: i < k && Opener(s, i, quote.value) && forall j: nat | i < j < k :: s[j] != quote.value)
  }

  ghost predicate Opener(s: string, i: nat, c: char)
    requires i < |s|
  {
    IsQuote(s[i]) && Outside(s, i) && s[i] == c
  }

  lemma NotOutside(s: string, i: nat, k: nat)
    requires i < k <= |s| && Opener(s, i, s[i]) && forall j: nat | i < j < k :: s[j] != s[i]
    ensures !Outside(s, k)
  {
  }

  lemma QuoteStep(s: string, k: nat, st: Scan)
    requires k < |s| && QuoteIs(s, k, st.quote)
    ensures QuoteIs(s, k + 1, Feed(st, s[k]).quote)
  {
    hide Strip;
    if st.quote.Some? {
      var i: nat :| i < k && Opener(s, i, st.quote.value) && forall j: nat | i < j < k :: s[j] != st.quote.value;
      if s[k] == st.quote.value {
        forall m: nat | m < k + 1 && IsQuote(s[m]) && Outside(s, m)
          ensures exists j: nat :: m < j < k + 1 && s[j] == s[m]
        {
          if m >= i {
            assert m == i;
            assert s[k] == s[i];
          }
        }
      } else {
        NotOutside(s, i, k + 1);
      }
    } else if IsQuote(s[k]) {
      assert Opener(s, k, s[k]);
      NotOutside(s, k, k + 1);
    } else {
      forall m: nat | m < k + 1 && IsQuote(s[m]) && Outside(s, m)
        ensures exists j: nat :: m < j < k + 1 && s[j] == s[m]
      {
        var j: nat :| m < j < k && s[j] == s[m];
      }
    }
  }

  lemma MarksStep(s: string, c: char, k: nat)
    requires k < |s|
    ensures |Marks(s, c, k + 1)| == |Marks(s, c, k)| + if s[k] == c && Outside(s, k) then 1 else 0
  {
    hide Outside;
    assert Marks(s, c, k + 1) == Marks(s, c, k) + if s[k] == c && Outside(s, k) then {k} else {};
  }

  lemma DepthStep(s: string, k: nat, st: Scan)
    requires k < |s| && QuoteIs(s, k, st.quote) && st.depth == Depth(s, k)
    ensures Feed(st, s[k]).depth == Depth(s, k + 1)
  {
    MarksStep(s, '(', k);
    MarksStep(s, ')', k);
    hide Outside, Marks, Strip;
  }

  lemma CutsStep(s: string, k: nat)
    requires k < |s|
    ensures Cuts(s, k + 1) == if IsCut(s, k) then Cuts(s, k) + [k] else Cuts(s, k)
    ensures forall m: nat | m <= |Cuts(s, k)| :: ArgStart(s, k + 1, m) == ArgStart(s, k, m)
  {
    hide IsCut;
  }

  lemma FeedForms(st: Scan, c: char)
    ensures var cut := st.quote.None? && c == ',' && st.depth == 0;
            && Feed(st, c).args == (if cut then st.args + [Strip(st.buf)] else st.args)
            && Feed(st, c).buf == (if cut then "" else st.buf + [c])
  {
    hide Strip;
  }

  lemma QuoteCut(s: string, k: nat, st: Scan)
    requires k < |s| && QuoteIs(s, k, st.quote) && st.depth == Depth(s, k)
    ensures IsCut(s, k) <==> st.quote.None? && s[k] == ',' && st.depth == 0
  {
    hide Outside, Depth;
  }

  lemma ArgsNext(s: string, k: nat, m: nat)
    requires k < |s| && m <= |Cuts(s, k)|
    ensures ArgStart(s, k + 1, m) == ArgStart(s, k, m)
    ensures m < |Cuts(s, k)| ==> m < |Cuts(s, k + 1)| && Cuts(s, k + 1)[m] == Cuts(s, k)[m]
    ensures IsCut(s, k) ==> |Cuts(s, k + 1)| == |Cuts(s, k)| + 1 && Cuts(s, k + 1)[|Cuts(s, k)|] == k
    ensures IsCut(s, k) ==> ArgStart(s, k + 1, |Cuts(s, k)| + 1) == k + 1
    ensures !IsCut(s, k) ==> |Cuts(s, k + 1)| == |Cuts(s, k)|
  {
    CutsStep(s, k);
    hide IsCut, Cuts;
  }

  lemma ArgsStep(s: string, k: nat, args: seq<string>, buf: string)
    requires k < |s| && ArgsTo(s, k, args, buf)
    ensures IsCut(s, k) ==> ArgsTo(s, k + 1, args + [Strip(buf)], "")
    ensures !IsCut(s, k) ==> ArgsTo(s, k + 1, args, buf + [s[k]])
  {
    hide Strip, IsCut, Cuts, ArgStart;
    var n := |Cuts(s, k)|;
    ArgsNext(s, k, n);
    assert s[ArgStart(s, k, n)..k + 1] == s[ArgStart(s, k, n)..k] + [s[k]];
    forall m: nat | m < n ensures args[m] == Strip(s[ArgStart(s, k + 1, m)..Cuts(s, k + 1)[m]]) {
      ArgsNext(s, k, m);
    }
  }

  lemma ScanStep(s: string, k: nat, st: Scan)
    requires k < |s| && ScannedTo(s, k, st)
    ensures ScannedTo(s, k + 1, Feed(st, s[k]))
  {
    QuoteStep(s, k, st);
    DepthStep(s, k, st);
    FeedForms(st, s[k]);
    QuoteCut(s, k, st);
    ArgsStep(s, k, st.args, st.buf);
    hide Depth, Strip, Feed, IsCut, Cuts, QuoteIs, ArgsTo;
  }

  lemma FeedAllNext(st: Scan, s: string, c: char)
    ensures FeedAll(st, s + [c]) == Feed(FeedAll(st, s), c)
    decreases |s|
  {
    hide Feed;
    if s != "" {
      assert (s + [c])[1..] == s[1..] + [c];
      FeedAllNext(Feed(st, s[0]), s[1..], c);
    } else {
      assert [c][1..] == "" && "" + [c] == [c];
    }
  }

  lemma ScanStart(s: string)
    ensures ScannedTo(s, 0, Scan([], "", 0, None))
  {
    assert Marks(s, '(', 0) == {} && Marks(s, ')', 0) == {};
    hide Strip, Marks, IsCut;
    assert Depth(s, 0) == 0 && QuoteIs(s, 0, None);
    hide Depth, QuoteIs, Outside;
    assert Cuts(s, 0) == [];
    hide Cuts;
    assert s[0..0] == "";
  }

  lemma {:induction false} ScanTo(s: string, k: nat)
    requires k <= |s|
    ensures ScannedTo(s, k, FeedAll(Scan([], "", 0, None), s[..k]))
    decreases k
  {
    hide ScannedTo, Feed;
    if k > 0 {
      ScanTo(s, k - 1);
      assert s[..k] == s[..k - 1] + [s[k - 1]];
      FeedAllNext(Scan([], "", 0, None), s[..k - 1], s[k - 1]);
      ScanStep(s, k - 1, FeedAll(Scan([], "", 0, None), s[..k - 1]));
    } else {
      ScanStart(s);
    }
  }

  /** The arguments that stand in s: what is between the top-level commas, stripped; blanks alone hold none. */
  ghost predicate ArgsAre(s: string, args: seq<string>) {
    var cuts := Cuts(s, |s|);
    if cuts == [] && Strip(s) == "" then args == []
    else |args| == |cuts| + 1 && forall m: nat | m < |args| :: args[m] == Strip(RawArg(s, m))
  }

  lemma RawArgIs(s: string, m: nat)
    requires m <= |Cuts(s, |s|)|
    ensures RawArg(s, m) == s[ArgStart(s, |s|, m)..if m < |Cuts(s, |s|)| then Cuts(s, |s|)[m] else |s|]
    ensures ArgStart(s, |s|, 0) == 0 && s[0..|s|] == s
  {
    hide Cuts;
  }

  lemma ArgsToAt(s: string, args: seq<string>, buf: string, m: nat)
    requires ArgsTo(s, |s|, args, buf) && m <= |Cuts(s, |s|)|
    ensures |args| == |Cuts(s, |s|)| && Strip(RawArg(s, m)) == if m < |args| then args[m] else Strip(buf)
    ensures |args| == 0 ==> RawArg(s, 0) == s
  {
    RawArgIs(s, m);
    RawArgIs(s, 0);
    hide Strip, Cuts, RawArg, ArgStart;
  }

  lemma ArgsEnd(s: string, args: seq<string>, buf: string)
    requires ArgsTo(s, |s|, args, buf)
    ensures ArgsAre(s, if Strip(buf) != "" || args != [] then args + [Strip(buf)] else args)
  {
    hide Strip, Cuts, RawArg, ArgsTo;
    forall m: nat | m <= |Cuts(s, |s|)|
      ensures |args| == |Cuts(s, |s|)| && Strip(RawArg(s, m)) == (args + [Strip(buf)])[m]
    {
      ArgsToAt(s, args, buf, m);
    }
    ArgsToAt(s, args, buf, 0);
  }

  /** The split exists exactly when no quote and no parenthesis is left open; it cuts at the top-level commas
      and nowhere else, and a text of blanks alone has no argument. */
  lemma SplitArgsExact(s: string)
    ensures SplitArgs(s).Some? <==> Balanced(s)
    ensures Balanced(s) ==> ArgsAre(s, SplitArgs(s).value)
  {
    assert s[..|s|] == s;
    ScanTo(s, |s|);
    var st := FeedAll(Scan([], "", 0, None), s);
    ArgsEnd(s, st.args, st.buf);
    hide Feed, FeedAll, Depth, Strip, Outside, Cuts, Marks, ArgsTo, ArgsAre;
  }

  /** The argument splitter. */
  method SplitArgsLoop(s: string) returns (args: Option<seq<string>>)
    ensures args == SplitArgs(s)
    ensures args.Some? <==> Balanced(s)
    ensures args.Some? ==> ArgsAre(s, args.value)
  {
    var st := Scan([], "", 0, None);
    assert s[0..] == s;
    for k := 0 to |s|
      invariant FeedAll(st, s[k..]) == FeedAll(Scan([], "", 0, None), s)
    {
      assert s[k..][0] == s[k] && s[k..][1..] == s[k + 1..];
      st := Feed(st, s[k]);
    }
    args := Closed(st);
    SplitArgsExact(s);
  }

  /** All pieces of the scan are made of the characters read so far, and no longer than them. */
  ghost predicate Bounded(st: Scan, n: nat, cs: set<char>) {
    && |st.buf| <= n && (forall c | c in st.buf :: c in cs)
    && forall i: nat | i < |st.args| :: |st.args[i]| <= n && forall c | c in st.args[i] :: c in cs
  }

  lemma {:induction false} FeedAllBounded(st: Scan, s: string, n: nat, cs: set<char>)
    requires Bounded(st, n, cs) && forall c | c in s :: c in cs
    ensures Bounded(FeedAll(st, s), n + |s|, cs)
    decreases |s|
  {
    if s != "" {
      assert s[0] in s && forall c | c in s[1..] :: c in s;
      FeedAllBounded(Feed(st, s[0]), s[1..], n + 1, cs);
    }
  }

  ghost function Chars(s: string): set<char> { set c | c in s }

  lemma SplitArgsBounded(s: string)
    requires SplitArgs(s).Some?
    ensures forall i: nat | i < |SplitArgs(s).value| ::
              |SplitArgs(s).value[i]| <= |s| && forall c | c in SplitArgs(s).value[i] :: c in s
  {
    FeedAllBounded(Scan([], "", 0, None), s, 0, Chars(s));
  }

  // ------------------------------------------------------------------------------------- grammar

  predicate NameChar(c: char) { 'a' <= c <= 'z' || c == '_' }

  function NameLen(s: string): (n: nat)
    ensures n <= |s|
    decreases |s|
  {
    if s != "" && NameChar(s[0]) then 1 + NameLen(s[1..]) else 0
  }

  /** `name(...)` over the whole text. */
  predicate IsCall(e: string) {
    var n := NameLen(e);
    n > 0 && n + 2 <= |e| && e[n] == '(' && e[|e| - 1] == ')'
  }

  function CallName(e: string): string
    requires IsCall(e)
  {
    e[..NameLen(e)]
  }

  function CallBody(e: string): (r: string)
    requires IsCall(e)
    ensures |r| < |e| && forall c | c in r :: c in e
  {
    e[NameLen(e) + 1..|e| - 1]
  }

  predicate IsLiteral(a: string) {
    |a| >= 2 && a[0] == a[|a| - 1] && (a[0] == '\'' || a[0] == '"')
  }

  predicate AllDigits(s: string) { forall i | 0 <= i < |s| :: '0' <= s[i] <= '9' }

  predicate IsInt(a: string) {
    var body := if a != "" && a[0] == '-' then a[1..] else a;
    body != "" && AllDigits(body)
  }

  function Natural(s: string): nat
    requires AllDigits(s)
  {
    if s == "" then 0 else Natural(s[..|s| - 1]) * 10 + DigitValue(s[|s| - 1])
  }

  function ParseInt(a: string): int
    requires IsInt(a)
  {
    if a[0] == '-' then -(Natural(a[1..]) as int) else Natural(a)
  }

  // ------------------------------------------------------------------------------------ functions

  predicate KnownFunction(fn: string) { fn == "default" || fn == "concat" || fn == "slug" }

  predicate ArityOk(fn: string, n: nat) {
    (fn == "default" ==> n == 2) && (fn == "concat" ==> n >= 1) && (fn == "slug" ==> n == 1)
  }

  function Concat(vs: seq<Value>): string {
    if vs == [] then "" else ToStr(vs[0]) + Concat(vs[1..])
  }

  function Lower(c: char): char {
    if 'A' <= c <= 'Z' then (c as int + 32) as char else c
  }

  predicate SlugChar(c: char) { 'a' <= c <= 'z' || '0' <= c <= '9' }

  /** Lower-cased, every run of other characters as one dash; `open` while inside such a run. */
  function Dashed(s: string, open: bool): string {
    if s == "" then ""
    else if SlugChar(Lower(s[0])) then [Lower(s[0])] + Dashed(s[1..], false)
    else (if open then "" else "-") + Dashed(s[1..], true)
  }

  function TrimDashes(s: string): string {
    if s != "" && s[0] == '-' then TrimDashes(s[1..])
    else if s != "" && s[|s| - 1] == '-' then TrimDashes(s[..|s| - 1])
    else s
  }

  function Slug(v: Value): string {
    var t := TrimDashes(Dashed(ToStr(v), false));
    if t == "" then "x" else t
  }

  function Apply(fn: string, vs: seq<Value>): Value
    requires KnownFunction(fn) && ArityOk(fn, |vs|)
  {
    if fn == "concat" then Str(Concat(vs))
    else if fn == "slug" then Str(Slug(vs[0]))
    else if Blank(vs[0]) then vs[1] else vs[0]
  }

  // ------------------------------------------------------------------------------------- resolver

  /** params.<n>, nodes.<id>.output.<n> or run.<field>. */
  function ResolveRef(path: string, ctx: Context): Out {
    var parts := Split(path, '.');
    if parts[0] == "params" && |parts| == 2 then
      if parts[1] in ctx.params then Ok(ctx.params[parts[1]]) else Fail
    else if parts[0] == "nodes" && |parts| == 4 && parts[2] == "output" then
      var v := ctx.output(parts[1], parts[3]);
      if v.Some? then Ok(v.value) else Missing
    else if parts[0] == "run" && |parts| == 2 then
      if parts[1] in ctx.run then Ok(ctx.run[parts[1]]) else Fail
    else Fail
  }

  datatype Outs = Oks(values: seq<Value>) | Bad(first: Out)

  function ResolveExpr(raw: string, ctx: Context): Out
    decreases |raw|, 1
  {
    var e := Strip(raw);
    if !IsCall(e) then ResolveRef(e, ctx)
    else
      var split := SplitArgs(CallBody(e));
      if CallName(e) == "default" then
        if split.None? || |split.value| != 2 then Fail
        else
          SplitArgsBounded(CallBody(e));
          var first := ResolveArg(split.value[0], ctx);
          if first.Missing? then ResolveArg(split.value[1], ctx)
          else if first.Ok? && Blank(first.value) then ResolveArg(split.value[1], ctx)
          else first
      else if !KnownFunction(CallName(e)) || split.None? then Fail
      else
        SplitArgsBounded(CallBody(e));
        var vs := ResolveArgs(split.value, |CallBody(e)|, ctx);
        if vs.Bad? then vs.first
        else if !ArityOk(CallName(e), |vs.values|) then Fail
        else Ok(Apply(CallName(e), vs.values))
  }

  function ResolveArg(raw: string, ctx: Context): Out
    decreases |raw|, 2
  {
    var tok := Strip(raw);
    if IsLiteral(tok) then Ok(Str(tok[1..|tok| - 1]))
    else if IsCall(tok) then ResolveExpr(tok, ctx)
    else if IsInt(tok) then Ok(Int(ParseInt(tok)))
    else ResolveRef(tok, ctx)
  }

  /** Left to right; the first refusal stands. */
  function ResolveArgs(args: seq<string>, bound: nat, ctx: Context): (vs: Outs)
    requires forall i: nat | i < |args| :: |args[i]| <= bound
    ensures vs.Bad? ==> !vs.first.Ok?
    decreases bound, 3, |args|
  {
    if args == [] then Oks([])
    else
      var v := ResolveArg(args[0], ctx);
      if !v.Ok? then Bad(v)
      else
        var rest := ResolveArgs(args[1..], bound, ctx);
        if rest.Bad? then rest else Oks([v.value] + rest.values)
  }

  // ------------------------------------------------------------------------------- static checker

  const RUN_FIELDS: set<string> := {"id", "pipeline", "trigger", "repo"}

  /** What the document declares around a field: its parameters (true for a secret one), the nodes
      whose outputs it may read, and those it may read in default() only. */
  datatype Scope = Scope(declared: map<string, bool>, allowed: set<string>, soft: set<string>)

  predicate CheckRef(path: string, sc: Scope, softOk: bool) {
    var parts := Split(path, '.');
    if parts[0] == "params" && |parts| == 2 then parts[1] in sc.declared && !sc.declared[parts[1]]
    else if parts[0] == "nodes" && |parts| == 4 && parts[2] == "output" then
      parts[1] in sc.allowed || (softOk && parts[1] in sc.soft)
    else parts[0] == "run" && |parts| == 2 && parts[1] in RUN_FIELDS
  }

  predicate CheckExpr(raw: string, sc: Scope, softOk: bool)
    decreases |raw|, 1
  {
    var e := Strip(raw);
    if !IsCall(e) then CheckRef(e, sc, softOk)
    else
      var split := SplitArgs(CallBody(e));
      if !KnownFunction(CallName(e)) || split.None? then false
      else
        SplitArgsBounded(CallBody(e));
        ArityOk(CallName(e), |split.value|) &&
        CheckArgs(split.value, |CallBody(e)|, sc, CallName(e) == "default")
  }

  predicate CheckArg(raw: string, sc: Scope, softOk: bool)
    decreases |raw|, 2
  {
    var a := Strip(raw);
    IsLiteral(a) || IsInt(a) || CheckExpr(a, sc, softOk)
  }

  /** Every argument checks; only the first may read softly, and only inside default(). */
  predicate CheckArgs(args: seq<string>, bound: nat, sc: Scope, firstSoft: bool)
    requires forall i: nat | i < |args| :: |args[i]| <= bound
    decreases bound, 3, |args|
  {
    args != [] ==> CheckArg(args[0], sc, firstSoft) && CheckArgs(args[1..], bound, sc, false)
  }

  // ------------------------------------------------------------------------------------- soundness

  /** The context holds every declared non-secret parameter, the four run fields, and all outputs of
      the allowed nodes. */
  ghost predicate Supplies(ctx: Context, sc: Scope) {
    && (forall p | p in sc.declared && !sc.declared[p] :: p in ctx.params)
    && (forall r | r in RUN_FIELDS :: r in ctx.run)
    && (forall node, name | node in sc.allowed :: ctx.output(node, name).Some?)
  }

  lemma CheckedRef(path: string, sc: Scope, softOk: bool, ctx: Context)
    requires CheckRef(path, sc, softOk) && Supplies(ctx, sc)
    ensures ResolveRef(path, ctx).Ok? || (softOk && ResolveRef(path, ctx).Missing?)
  {
  }

  /** Whatever the checker accepts resolves; only a soft read may find its output missing. */
  lemma {:induction false} CheckedExpr(raw: string, sc: Scope, softOk: bool, ctx: Context)
    requires CheckExpr(raw, sc, softOk) && Supplies(ctx, sc)
    ensures ResolveExpr(raw, ctx).Ok? || (softOk && !IsCall(Strip(raw)) && ResolveExpr(raw, ctx).Missing?)
    decreases |raw|, 1
  {
    var e := Strip(raw);
    if !IsCall(e) {
      CheckedRef(e, sc, softOk, ctx);
    } else {
      SplitArgsBounded(CallBody(e));
      var args := SplitArgs(CallBody(e)).value;
      if CallName(e) == "default" {
        assert CheckArg(args[0], sc, true) && CheckArgs(args[1..], |CallBody(e)|, sc, false);
        assert args[1..][0] == args[1];
        CheckedArg(args[0], sc, true, ctx);
        CheckedArg(args[1], sc, false, ctx);
      } else {
        CheckedArgs(args, |CallBody(e)|, sc, ctx);
      }
    }
  }

  lemma {:induction false} CheckedArg(raw: string, sc: Scope, softOk: bool, ctx: Context)
    requires CheckArg(raw, sc, softOk) && Supplies(ctx, sc)
    ensures ResolveArg(raw, ctx).Ok? || (softOk && ResolveArg(raw, ctx).Missing?)
    decreases |raw|, 2
  {
    var a := Strip(raw);
    if !IsLiteral(a) && !IsInt(a) {
      StripStrip(raw);
      CheckedExpr(a, sc, softOk, ctx);
    }
  }

  lemma {:induction false} CheckedArgs(args: seq<string>, bound: nat, sc: Scope, ctx: Context)
    requires forall i: nat | i < |args| :: |args[i]| <= bound
    requires CheckArgs(args, bound, sc, false) && Supplies(ctx, sc)
    ensures ResolveArgs(args, bound, ctx).Oks? && |ResolveArgs(args, bound, ctx).values| == |args|
    decreases bound, 3, |args|
  {
    if args != [] {
      CheckedArg(args[0], sc, false, ctx);
      CheckedArgs(args[1..], bound, sc, ctx);
    }
  }

  // ------------------------------------------------------------------------------------ substitution

  /** The stand-in for an escaped opener. */
  const ESC: string := "\0AE_DOLLAR_BRACE\0"

  const ESCAPED: string := "$${"
  const OPENER: string := "${"

  /** Every escaped opener, leftmost first, becomes the stand-in. */
  function Protect(s: string): string
    decreases |s|
  {
    if s == "" then ""
    else if ESCAPED <= s then ESC + Protect(s[3..])
    else [s[0]] + Protect(s[1..])
  }

  function Unprotect(s: string): string
    decreases |s|
  {
    if s == "" then ""
    else if ESC <= s then OPENER + Unprotect(s[|ESC|..])
    else [s[0]] + Unprotect(s[1..])
  }

  /** The text with every escaped opener taken out. */
  function Removed(s: string): string
    decreases |s|
  {
    if s == "" then ""
    else if ESCAPED <= s then Removed(s[3..])
    else [s[0]] + Removed(s[1..])
  }

  predicate HasOpener(s: string)
    decreases |s|
  {
    s != "" && (OPENER <= s || HasOpener(s[1..]))
  }

  /** The distance to the first closing brace, or the whole length when there is none. */
  function Close(s: string): (k: nat)
    ensures k <= |s| && (k < |s| ==> s[k] == '}') && '}' !in s[..k]
    decreases |s|
  {
    if s == "" || s[0] == '}' then 0 else 1 + Close(s[1..])
  }

  predicate RefAt(s: string) { OPENER <= s && Close(s[2..]) < |s| - 2 }

  datatype Piece = Text(c: char) | Ref(body: string)

  /** The leftmost non-overlapping references of a text, and the characters between them. */
  function Pieces(s: string): seq<Piece>
    decreases |s|
  {
    if s == "" then []
    else if RefAt(s) then
      var k := Close(s[2..]);
      [Ref(s[2..][..k])] + Pieces(s[2..][k + 1..])
    else [Text(s[0])] + Pieces(s[1..])
  }

  /** What is left when the references are taken out. */
  function Plain(ps: seq<Piece>): string {
    if ps == [] then "" else (if ps[0].Text? then [ps[0].c] else "") + Plain(ps[1..])
  }

  function Then(first: Out, rest: Out): Out {
    if !first.Ok? then first else if !rest.Ok? then rest else Ok(Str(ToStr(first.value) + ToStr(rest.value)))
  }

  /** References replaced by their printed values, left to right; the first refusal stands. */
  function Filled(ps: seq<Piece>, ctx: Context): Out {
    if ps == [] then Ok(Str(""))
    else Then(if ps[0].Text? then Ok(Str([ps[0].c])) else ResolveExpr(ps[0].body, ctx), Filled(ps[1..], ctx))
  }

  function Opened(v: Value): Value {
    if v.Str? then Str(Unprotect(v.s)) else v
  }

  function Read(out: Out): Out {
    if out.Ok? then Ok(Opened(out.value)) else out
  }

  /** One field: a lone reference keeps its typed value, embedded ones print into the text. */
  function Substitute(v: Value, ctx: Context): Out {
    if !v.Str? then Ok(v)
    else
      var ps := Pieces(Protect(v.s));
      if HasOpener(Plain(ps)) then Fail
      else
        Read(if |ps| == 1 && ps[0].Ref? then ResolveExpr(ps[0].body, ctx) else Filled(ps, ctx))
  }

  function Bodies(ps: seq<Piece>): seq<string> {
    if ps == [] then [] else (if ps[0].Ref? then [ps[0].body] else []) + Bodies(ps[1..])
  }

  /** The static scan of one string field. */
  predicate CheckString(s: string, sc: Scope) {
    HasOpener(Removed(s)) ==>
      var ps := Pieces(Protect(s));
      && !HasOpener(Plain(ps))
      && forall i | 0 <= i < |Bodies(ps)| :: CheckExpr(Bodies(ps)[i], sc, false)
  }

  // ----------------------------------------------------------------- the scan's gate loses nothing

  /** A text whose escapes are protected opens nothing that the plain removal does not show. */
  lemma {:induction false} GateExact(s: string)
    ensures HasOpener(Protect(s)) ==> HasOpener(Removed(s))
    ensures s != "" && s[0] == '{' ==> Removed(s) != "" && Removed(s)[0] == '{'
    ensures s != "" ==> Protect(s) != "" && (Protect(s)[0] == '{' ==> s[0] == '{')
    decreases |s|
  {
    if s == "" {
    } else if ESCAPED <= s {
      GateExact(s[3..]);
      EscPlain();
      DollarFreeOpener(ESC, Protect(s[3..]));
    } else {
      GateExact(s[1..]);
      var p, q := Protect(s[1..]), Removed(s[1..]);
      assert Protect(s)[1..] == p && Removed(s)[1..] == q;
    }
  }

  lemma EscPlain()
    ensures '$' !in ESC && '}' !in ESC
  {
    assert forall i | 0 <= i < |ESC| :: ESC[i] != '$' && ESC[i] != '}';
  }

  lemma {:induction false} DollarFreeOpener(v: string, t: string)
    requires '$' !in v
    ensures HasOpener(v + t) == HasOpener(t)
    decreases |v|
  {
    if v == "" {
      assert v + t == t;
    } else {
      DollarFreeOpener(v[1..], t);
      assert (v + t)[1..] == v[1..] + t && (v + t)[0] == v[0] && v[0] in v;
    }
  }

  lemma {:induction false} NoOpenerNoRef(s: string)
    requires !HasOpener(s)
    ensures Bodies(Pieces(s)) == [] && Plain(Pieces(s)) == s
    decreases |s|
  {
    if s != "" {
      NoOpenerNoRef(s[1..]);
    }
  }

  lemma {:induction false} FilledChecked(ps: seq<Piece>, sc: Scope, ctx: Context)
    requires forall i | 0 <= i < |Bodies(ps)| :: CheckExpr(Bodies(ps)[i], sc, false)
    requires Supplies(ctx, sc)
    ensures Filled(ps, ctx).Ok? && Filled(ps, ctx).value.Str?
    ensures |ps| == 1 && ps[0].Ref? ==> ResolveExpr(ps[0].body, ctx).Ok?
  {
    if ps != [] {
      var rest := Bodies(ps[1..]);
      if ps[0].Ref? {
        assert Bodies(ps)[0] == ps[0].body;
        CheckedExpr(ps[0].body, sc, false, ctx);
        assert forall i | 0 <= i < |rest| :: rest[i] == Bodies(ps)[i + 1];
      } else {
        assert Bodies(ps) == rest;
      }
      FilledChecked(ps[1..], sc, ctx);
    }
  }

  /** Static soundness: a string the scan accepts substitutes without error in every context that
      supplies what the document declares, whether or not any soft output exists. */
  lemma CheckedSubstitutes(s: string, sc: Scope, ctx: Context)
    requires CheckString(s, sc) && Supplies(ctx, sc)
    ensures Substitute(Str(s), ctx).Ok?
  {
    var p := Protect(s);
    GateExact(s);
    if !HasOpener(Removed(s)) {
      NoOpenerNoRef(p);
    }
    FilledChecked(Pieces(p), sc, ctx);
  }

  // ------------------------------------------------------------------------------------- inertness

  predicate NulFree(s: string) { '\0' !in s }

  predicate HasEscape(s: string)
    decreases |s|
  {
    s != "" && (ESCAPED <= s || HasEscape(s[1..]))
  }

  /** The meaning of substitution: one pass over the raw text. A value is printed where its reference
      stood and never looked at again. */
  function OnePass(s: string, ctx: Context): Out
    decreases |s|
  {
    if s == "" then Ok(Str(""))
    else if ESCAPED <= s then Then(Ok(Str(OPENER)), OnePass(s[3..], ctx))
    else if OPENER <= s then
      var k := Close(s[2..]);
      if k == |s| - 2 then Fail
      else Then(ResolveExpr(s[2..][..k], ctx), OnePass(s[2..][k + 1..], ctx))
    else Then(Ok(Str([s[0]])), OnePass(s[1..], ctx))
  }

  /** No reference of the text holds an escaped opener. */
  predicate PlainBodies(s: string)
    decreases |s|
  {
    if s == "" then true
    else if ESCAPED <= s then PlainBodies(s[3..])
    else if RefAt(s) then
      var k := Close(s[2..]);
      !HasEscape(s[2..][..k]) && PlainBodies(s[2..][k + 1..])
    else PlainBodies(s[1..])
  }

  /** Some reference is opened and never closed. */
  predicate Unterminated(s: string)
    decreases |s|
  {
    if s == "" then false
    else if ESCAPED <= s then Unterminated(s[3..])
    else if OPENER <= s then
      var k := Close(s[2..]);
      k == |s| - 2 || Unterminated(s[2..][k + 1..])
    else Unterminated(s[1..])
  }

  /** No value the resolver can reach holds a NUL. */
  ghost predicate NulFreeContext(ctx: Context) {
    && (forall p | p in ctx.params :: NulFree(ToStr(ctx.params[p])))
    && (forall r | r in ctx.run :: NulFree(ToStr(ctx.run[r])))
    && forall a, b :: ctx.output(a, b).Some? ==> NulFree(ToStr(ctx.output(a, b).value))
  }

  lemma {:induction false} DigitsNulFree(n: nat)
    ensures NulFree(Digits(n))
  {
    if n >= 10 {
      DigitsNulFree(n / 10);
    }
  }

  lemma {:induction false} ConcatNulFree(vs: seq<Value>)
    requires forall i: nat | i < |vs| :: NulFree(ToStr(vs[i]))
    ensures NulFree(Concat(vs))
  {
    if vs != [] {
      ConcatNulFree(vs[1..]);
    }
  }

  lemma {:induction false} DashedNulFree(s: string, open: bool)
    ensures NulFree(Dashed(s, open))
    decreases |s|
  {
    if s != "" {
      DashedNulFree(s[1..], false);
      DashedNulFree(s[1..], true);
    }
  }

  lemma {:induction false} TrimNulFree(s: string)
    requires NulFree(s)
    ensures NulFree(TrimDashes(s))
    decreases |s|
  {
    if s != "" && s[0] == '-' {
      TrimNulFree(s[1..]);
    } else if s != "" && s[|s| - 1] == '-' {
      TrimNulFree(s[..|s| - 1]);
    }
  }

  lemma ApplyNulFree(fn: string, vs: seq<Value>)
    requires KnownFunction(fn) && ArityOk(fn, |vs|) && forall i: nat | i < |vs| :: NulFree(ToStr(vs[i]))
    ensures NulFree(ToStr(Apply(fn, vs)))
  {
    ConcatNulFree(vs);
    if fn == "slug" {
      DashedNulFree(ToStr(vs[0]), false);
      TrimNulFree(Dashed(ToStr(vs[0]), false));
    }
  }

  lemma SplitNulFree(s: string)
    requires NulFree(s) && SplitArgs(s).Some?
    ensures forall i: nat | i < |SplitArgs(s).value| :: |SplitArgs(s).value[i]| <= |s| && NulFree(SplitArgs(s).value[i])
  {
    hide SplitArgs;
    SplitArgsBounded(s);
  }

  lemma {:induction false} ExprNulFree(raw: string, ctx: Context)
    requires NulFree(raw) && NulFreeContext(ctx)
    ensures ResolveExpr(raw, ctx).Ok? ==> NulFree(ToStr(ResolveExpr(raw, ctx).value))
    decreases |raw|, 1
  {
    hide SplitArgs, Blank, Apply, IsCall, StripLeft, StripRight;
    var e := Strip(raw);
    StripStrip(raw);
    if !IsCall(e) {
      RefNulFree(e, ctx);
    } else if SplitArgs(CallBody(e)).Some? {
      CallNulFree(e, SplitArgs(CallBody(e)).value, ctx);
    }
  }

  lemma RefNulFree(path: string, ctx: Context)
    requires NulFreeContext(ctx)
    ensures ResolveRef(path, ctx).Ok? ==> NulFree(ToStr(ResolveRef(path, ctx).value))
  {
    hide NulFree, ToStr, Split;
  }

  lemma {:induction false} CallNulFree(e: string, args: seq<string>, ctx: Context)
    requires NulFree(e) && NulFreeContext(ctx) && Strip(e) == e && IsCall(e) && SplitArgs(CallBody(e)) == Some(args)
    ensures ResolveExpr(e, ctx).Ok? ==> NulFree(ToStr(ResolveExpr(e, ctx).value))
    decreases |e|, 0
  {
    hide SplitArgs, Blank, Strip, Apply, NulFreeContext, ToStr;
    assert NulFree(CallBody(e));
    SplitNulFree(CallBody(e));
    hide NulFree;
    if CallName(e) == "default" {
      if |args| == 2 {
        ArgNulFree(args[0], ctx);
        ArgNulFree(args[1], ctx);
      }
    } else {
      ArgsNulFree(args, |CallBody(e)|, ctx);
      var vs := ResolveArgs(args, |CallBody(e)|, ctx);
      if vs.Oks? && KnownFunction(CallName(e)) && ArityOk(CallName(e), |vs.values|) {
        ApplyNulFree(CallName(e), vs.values);
      }
    }
  }

  lemma {:induction false} ArgNulFree(raw: string, ctx: Context)
    requires NulFree(raw) && NulFreeContext(ctx)
    ensures ResolveArg(raw, ctx).Ok? ==> NulFree(ToStr(ResolveArg(raw, ctx).value))
    decreases |raw|, 2
  {
    hide ResolveExpr, ResolveRef, NulFreeContext;
    var tok := Strip(raw);
    if !IsLiteral(tok) {
      if IsCall(tok) {
        ExprNulFree(tok, ctx);
      } else if IsInt(tok) {
        var n := ParseInt(tok);
        DigitsNulFree(if n < 0 then -n else n);
      } else {
        RefNulFree(tok, ctx);
      }
    }
  }

  lemma {:induction false} ArgsNulFree(args: seq<string>, bound: nat, ctx: Context)
    requires forall i: nat | i < |args| :: |args[i]| <= bound && NulFree(args[i])
    requires NulFreeContext(ctx)
    ensures var vs := ResolveArgs(args, bound, ctx);
            vs.Oks? ==> forall i: nat | i < |vs.values| :: NulFree(ToStr(vs.values[i]))
    decreases bound, 3, |args|
  {
    hide NulFree, NulFreeContext, ToStr, ResolveArg;
    if args != [] {
      ArgNulFree(args[0], ctx);
      ArgsNulFree(args[1..], bound, ctx);
    }
  }

  // ------------------------------------------------- how protected text falls into pieces

  function Texts(v: string): (ps: seq<Piece>)
    ensures |ps| == |v| && forall i | 0 <= i < |v| :: ps[i] == Text(v[i])
  {
    seq(|v|, i requires 0 <= i < |v| => Text(v[i]))
  }

  lemma PlainChar(c: char, t: string)
    requires c != '$'
    ensures Pieces([c] + t) == [Text(c)] + Pieces(t)
  {
    var s := [c] + t;
    assert s[0] == c && OPENER[0] == '$' && s[1..] == t;
  }

  lemma {:induction false} TextPieces(v: string, t: string)
    requires '$' !in v
    ensures Pieces(v + t) == Texts(v) + Pieces(t)
    decreases |v|
  {
    hide Pieces;
    if v == "" {
      assert v + t == t;
    } else {
      assert v[0] in v;
      TextPieces(v[1..], t);
      PlainChar(v[0], v[1..] + t);
      assert v + t == [v[0]] + (v[1..] + t);
      assert Texts(v) == [Text(v[0])] + Texts(v[1..]);
    }
  }

  lemma TextRead(c: char, ps: seq<Piece>, ctx: Context)
    ensures Plain([Text(c)] + ps) == [c] + Plain(ps)
    ensures Filled([Text(c)] + ps, ctx) == Then(Ok(Str([c])), Filled(ps, ctx))
  {
    hide ResolveExpr, Then;
    assert ([Text(c)] + ps)[1..] == ps;
  }

  lemma {:induction false} TextsRead(v: string, ps: seq<Piece>, ctx: Context)
    ensures Plain(Texts(v) + ps) == v + Plain(ps)
    ensures Filled(Texts(v) + ps, ctx) == Then(Ok(Str(v)), Filled(ps, ctx))
    decreases |v|
  {
    hide ResolveExpr, Plain, Filled;
    if v == "" {
      assert Texts(v) + ps == ps;
      FilledPrints(ps, ctx);
    } else {
      var rest := Texts(v[1..]) + ps;
      assert Texts(v) + ps == [Text(v[0])] + rest;
      TextsRead(v[1..], ps, ctx);
      TextRead(v[0], rest, ctx);
      assert v == [v[0]] + v[1..];
      ThenThen([v[0]], v[1..], Filled(ps, ctx));
      assert [v[0]] + (v[1..] + Plain(ps)) == v + Plain(ps);
    }
  }

  lemma ThenThen(a: string, b: string, rest: Out)
    ensures Then(Ok(Str(a)), Then(Ok(Str(b)), rest)) == Then(Ok(Str(a + b)), rest)
  {
    if rest.Ok? {
      assert a + (b + ToStr(rest.value)) == a + b + ToStr(rest.value);
    }
  }

  lemma FilledPrints(ps: seq<Piece>, ctx: Context)
    ensures Then(Ok(Str("")), Filled(ps, ctx)) == Filled(ps, ctx)
  {
    hide ResolveExpr;
    if Filled(ps, ctx).Ok? {
      assert "" + ToStr(Filled(ps, ctx).value) == ToStr(Filled(ps, ctx).value);
    }
  }

  lemma UnprotectEsc(t: string)
    ensures Unprotect(ESC + t) == OPENER + Unprotect(t)
  {
    assert ESC <= ESC + t && (ESC + t)[|ESC|..] == t;
  }

  lemma ProtectStep(s: string)
    requires s != "" && !(ESCAPED <= s)
    ensures Protect(s) == [s[0]] + Protect(s[1..])
  {
  }

  lemma EscapeHere(s: string, k: nat)
    requires k < |s| && s[k] == '}' && '}' !in s[..k]
    ensures ESCAPED <= s <==> ESCAPED <= s[..k]
    ensures ESCAPED <= s ==> k >= 3
  {
    if ESCAPED <= s {
      assert s[0] == ESCAPED[0] && s[1] == ESCAPED[1] && s[2] == ESCAPED[2];
      assert ESCAPED == s[..k][..3];
    }
  }

  /** Dropping the first n characters in front of position k. */
  lemma DropBefore(s: string, k: nat, n: nat)
    requires n <= k < |s| && '}' !in s[..k]
    ensures s[..k][n..] == s[n..][..k - n] && s[n..][k - n] == s[k] && s[n..][k - n + 1..] == s[k + 1..]
    ensures '}' !in s[n..][..k - n]
  {
    assert s[..k][n..] == s[n..][..k - n];
  }

  lemma JoinBrace(x: string, y: string, z: string)
    ensures x + (y + "}" + z) == x + y + "}" + z
  {
  }

  /** Escapes do not reach across a closing brace. */
  lemma {:induction false} ProtectBody(s: string, k: nat)
    requires k < |s| && s[k] == '}' && '}' !in s[..k]
    ensures Protect(s) == Protect(s[..k]) + "}" + Protect(s[k + 1..])
    decreases k
  {
    hide *;
    EscapeHere(s, k);
    var b := s[k + 1..];
    if ESCAPED <= s {
      DropBefore(s, k, 3);
      ProtectBody(s[3..], k - 3);
      ProtectEscape(s);
      ProtectEscape(s[..k]);
      JoinBrace(ESC, Protect(s[3..][..k - 3]), Protect(b));
    } else if k > 0 {
      DropBefore(s, k, 1);
      ProtectBody(s[1..], k - 1);
      ProtectStep(s);
      ProtectStep(s[..k]);
      JoinBrace([s[0]], Protect(s[1..][..k - 1]), Protect(b));
    } else {
      ProtectStep(s);
      ProtectNothing();
    }
  }

  lemma ProtectNothing()
    ensures Protect("") == "" && forall s: string :: s[..0] == ""
  {
  }

  lemma ProtectEscape(s: string)
    requires ESCAPED <= s
    ensures Protect(s) == ESC + Protect(s[3..])
  {
  }

  lemma {:induction false} ProtectNone(b: string)
    requires !HasEscape(b)
    ensures Protect(b) == b
    decreases |b|
  {
    if b != "" {
      ProtectNone(b[1..]);
    }
  }

  lemma {:induction false} CloseAt(b: string, t: string)
    requires '}' !in b
    ensures Close(b + "}" + t) == |b|
    decreases |b|
  {
    var s := b + "}" + t;
    if b != "" {
      CloseAt(b[1..], t);
      assert s[1..] == b[1..] + "}" + t && s[0] == b[0] && b[0] in b;
    }
  }

  lemma RefPieces(b: string, t: string)
    requires '}' !in b
    ensures Pieces(OPENER + (b + "}" + t)) == [Ref(b)] + Pieces(t)
  {
    var s := OPENER + (b + "}" + t);
    assert s[2..] == b + "}" + t;
    CloseAt(b, t);
    assert s[2..][..|b|] == b && s[2..][|b| + 1..] == t;
  }

  lemma {:induction false} ProtectNoBrace(s: string)
    requires '}' !in s
    ensures '}' !in Protect(s)
    decreases |s|
  {
    if s != "" {
      if ESCAPED <= s {
        ProtectNoBrace(s[3..]);
        EscPlain();
      } else {
        ProtectNoBrace(s[1..]);
      }
    }
  }

  lemma {:induction false} NoBraceNoRef(s: string)
    requires '}' !in s
    ensures Plain(Pieces(s)) == s
    decreases |s|
  {
    if s != "" {
      NoBraceNoRef(s[1..]);
      if RefAt(s) {
        assert s[2..][Close(s[2..])] in s;
      }
    }
  }

  lemma OpenerHead(c: char, t: string)
    ensures OPENER <= [c] + t <==> c == '$' && t != "" && t[0] == '{'
  {
    var s := [c] + t;
    assert OPENER <= s <==> |s| >= 2 && s[0] == OPENER[0] && s[1] == OPENER[1];
  }

  lemma ProtectOpener(s: string)
    ensures OPENER <= Protect(s) <==> OPENER <= s
  {
    if ESCAPED <= s {
      assert Protect(s)[0] == ESC[0] && s[1] == ESCAPED[1];
    } else if s != "" {
      GateExact(s[1..]);
      ProtectStep(s);
      hide Protect;
      assert s == [s[0]] + s[1..];
      OpenerHead(s[0], s[1..]);
      OpenerHead(s[0], Protect(s[1..]));
      if s[0] == '$' && s[1..] != "" && s[1..][0] == '{' {
        BraceStays(s[1..]);
      }
    }
  }

  lemma BraceStays(t: string)
    requires t != "" && t[0] == '{'
    ensures Protect(t) != "" && Protect(t)[0] == '{'
  {
    assert ESCAPED[0] == '$';
  }

  // The four ways a text can begin, and the pieces of its protected form.

  lemma EscapeHead(s: string)
    requires ESCAPED <= s
    ensures Pieces(Protect(s)) == Texts(ESC) + Pieces(Protect(s[3..]))
  {
    hide Pieces;
    EscPlain();
    TextPieces(ESC, Protect(s[3..]));
  }

  lemma OpenerProtect(t: string)
    ensures !(ESCAPED <= OPENER + t) && Protect(OPENER + t) == OPENER + Protect(t)
  {
    var s, u := OPENER + t, ['{'] + t;
    assert ESCAPED[0] == '$' == ESCAPED[1] && s[0] == '$' && s[1] == '{' && s[1..] == u && u[1..] == t;
    ProtectStep(s);
    ProtectStep(u);
    assert ['$'] + (['{'] + Protect(t)) == OPENER + Protect(t);
  }

  lemma RefProtect(s: string, k: nat)
    requires OPENER <= s && k == Close(s[2..]) < |s| - 2
    ensures !(ESCAPED <= s)
    ensures Protect(s) == OPENER + (Protect(s[2..][..k]) + "}" + Protect(s[2..][k + 1..]))
  {
    hide HasEscape, Close, Protect;
    assert s == OPENER + s[2..];
    OpenerProtect(s[2..]);
    ProtectBody(s[2..], k);
  }

  lemma RefHead(s: string, k: nat)
    requires OPENER <= s && k == Close(s[2..]) < |s| - 2
    ensures !(ESCAPED <= s)
    ensures Pieces(Protect(s)) == [Ref(Protect(s[2..][..k]))] + Pieces(Protect(s[2..][k + 1..]))
    ensures !HasEscape(s[2..][..k]) ==> Protect(s[2..][..k]) == s[2..][..k]
  {
    hide Pieces, HasEscape, Protect;
    RefProtect(s, k);
    ProtectNoBrace(s[2..][..k]);
    RefPieces(Protect(s[2..][..k]), Protect(s[2..][k + 1..]));
    if !HasEscape(s[2..][..k]) {
      ProtectNone(s[2..][..k]);
    }
  }

  lemma OpenHead(s: string)
    requires OPENER <= s && Close(s[2..]) == |s| - 2
    ensures HasOpener(Plain(Pieces(Protect(s))))
  {
    hide Pieces, Close, Protect;
    assert s[2..][..|s| - 2] == s[2..] && '}' !in s[2..];
    assert s[0] == '$' && s[1] == '{' && forall i | 2 <= i < |s| :: s[i] == s[2..][i - 2];
    ProtectNoBrace(s);
    NoBraceNoRef(Protect(s));
    ProtectOpener(s);
  }

  lemma OpenerAfterDollar(s: string)
    requires s != "" && s[0] == '$' && OPENER <= s[1..]
    ensures ESCAPED <= s
  {
    assert s[1] == s[1..][0] == OPENER[0] && s[2] == s[1..][1] == OPENER[1];
  }

  lemma TextHead(s: string)
    requires s != "" && !(ESCAPED <= s) && !(OPENER <= s)
    ensures Pieces(Protect(s)) == [Text(s[0])] + Pieces(Protect(s[1..]))
    ensures s[0] == '$' ==>
              var rest := Plain(Pieces(Protect(s[1..])));
              rest == "" || rest[0] != '{'
  {
    ProtectOpener(s);
    assert Protect(s)[1..] == Protect(s[1..]);
    if s[0] == '$' && s[1..] != "" {
      GateExact(s[1..]);
      ProtectOpener(s[1..]);
      if OPENER <= s[1..] {
        OpenerAfterDollar(s);
      }
    }
  }

  lemma NoPieces()
    ensures Pieces(Protect("")) == []
  {
  }

  /** Where the pieces of a protected text hold a stray opener: exactly where a reference of the raw text is
      never closed. */
  lemma {:induction false} OpenExactly(s: string)
    ensures HasOpener(Plain(Pieces(Protect(s)))) <==> Unterminated(s)
    decreases |s|
  {
    hide Pieces, Protect, HasEscape, Close;
    if s == "" {
      NoPieces();
    } else if ESCAPED <= s {
      EscapeHead(s);
      OpenExactly(s[3..]);
      EscPlain();
      PlainTexts(ESC, Pieces(Protect(s[3..])));
      DollarFreeOpener(ESC, Plain(Pieces(Protect(s[3..]))));
    } else if OPENER <= s {
      var k := Close(s[2..]);
      if k == |s| - 2 {
        OpenHead(s);
      } else {
        RefHead(s, k);
        OpenExactly(s[2..][k + 1..]);
        PlainRef(Protect(s[2..][..k]), Pieces(Protect(s[2..][k + 1..])));
      }
    } else {
      TextHead(s);
      OpenExactly(s[1..]);
      var ps := Pieces(Protect(s[1..]));
      assert ([Text(s[0])] + ps)[1..] == ps;
      OpenerHead(s[0], Plain(ps));
      assert ([s[0]] + Plain(ps))[1..] == Plain(ps);
    }
  }

  lemma PlainRef(b: string, ps: seq<Piece>)
    ensures Plain([Ref(b)] + ps) == Plain(ps)
  {
    assert ([Ref(b)] + ps)[1..] == ps;
  }

  lemma PlainTexts(v: string, ps: seq<Piece>)
    ensures Plain(Texts(v) + ps) == v + Plain(ps)
  {
    TextsRead(v, ps, Context(map[], (a, b) => None, map[]));
  }

  // ------------------------------------------------------------------ where the stand-in is misread

  /** What is printed: characters, and the openers that were escaped. */
  datatype Sym = Ch(c: char) | Open

  function Syms(v: string): (r: seq<Sym>)
    ensures |r| == |v| && forall i | 0 <= i < |v| :: r[i] == Ch(v[i])
  {
    seq(|v|, i requires 0 <= i < |v| => Ch(v[i]))
  }

  /** As it stands before the stand-ins are read back, and as it is meant. */
  function Held(p: seq<Sym>): string {
    if p == [] then "" else (if p[0].Open? then ESC else [p[0].c]) + Held(p[1..])
  }

  function Meant(p: seq<Sym>): string {
    if p == [] then "" else (if p[0].Open? then OPENER else [p[0].c]) + Meant(p[1..])
  }

  /** The one pass again, as what is printed. The body of a reference is read with its escapes replaced. */
  function Shown(s: string, ctx: Context): Option<seq<Sym>>
    decreases |s|
  {
    if s == "" then Some([])
    else if ESCAPED <= s then
      var rest := Shown(s[3..], ctx);
      if rest.None? then None else Some([Open] + rest.value)
    else if OPENER <= s then
      var k := Close(s[2..]);
      if k == |s| - 2 then None
      else
        var out, rest := ResolveExpr(Protect(s[2..][..k]), ctx), Shown(s[2..][k + 1..], ctx);
        if !out.Ok? || rest.None? then None else Some(Syms(ToStr(out.value)) + rest.value)
    else
      var rest := Shown(s[1..], ctx);
      if rest.None? then None else Some([Ch(s[0])] + rest.value)
  }

  /** The stand-in begins nowhere but where an escaped opener is held. */
  predicate Clean(p: seq<Sym>) {
    p != [] ==> (p[0].Ch? ==> !(ESC <= Held(p))) && Clean(p[1..])
  }

  /** Reading the stand-ins back gives what is meant exactly when nothing else looks like one. */
  lemma {:induction false} UnprotectExact(p: seq<Sym>)
    ensures Unprotect(Held(p)) == Meant(p) <==> Clean(p)
  {
    if p != [] {
      UnprotectExact(p[1..]);
      var h, m := Held(p[1..]), Meant(p[1..]);
      if p[0].Open? {
        UnprotectEsc(h);
        hide Unprotect;
        assert (OPENER + Unprotect(h))[2..] == Unprotect(h) && (OPENER + m)[2..] == m;
      } else {
        UnprotectChar(p[0].c, h);
        hide Unprotect;
        assert ([p[0].c] + Unprotect(h))[1..] == Unprotect(h) && ([p[0].c] + m)[1..] == m;
      }
    }
  }

  lemma UnprotectChar(c: char, h: string)
    ensures !(ESC <= [c] + h) ==> Unprotect([c] + h) == [c] + Unprotect(h)
    ensures ESC <= [c] + h ==> forall m: string :: Unprotect([c] + h) != [c] + m
  {
    var s := [c] + h;
    assert s[1..] == h;
    if ESC <= s {
      assert c == s[0] == ESC[0];
      forall m: string ensures Unprotect(s) != [c] + m {
        assert Unprotect(s)[0] == OPENER[0] && ([c] + m)[0] == c;
      }
    }
  }

  lemma {:induction false} HeldSyms(v: string, p: seq<Sym>)
    ensures Held(Syms(v) + p) == v + Held(p) && Meant(Syms(v) + p) == v + Meant(p)
    decreases |v|
  {
    hide Held, Meant;
    if v == "" {
      assert Syms(v) + p == p;
    } else {
      HeldSyms(v[1..], p);
      assert Syms(v) + p == [Ch(v[0])] + (Syms(v[1..]) + p);
      HeldOne(v[0], Syms(v[1..]) + p);
      assert v == [v[0]] + v[1..];
    }
  }

  lemma HeldOne(c: char, p: seq<Sym>)
    ensures Held([Ch(c)] + p) == [c] + Held(p) && Meant([Ch(c)] + p) == [c] + Meant(p)
    ensures Held([Open] + p) == ESC + Held(p) && Meant([Open] + p) == OPENER + Meant(p)
  {
    assert ([Ch(c)] + p)[1..] == p && ([Open] + p)[1..] == p;
  }

  /** Filling the pieces of the protected text prints it with the stand-ins still in. */
  lemma {:induction false} FilledIsHeld(s: string, ctx: Context)
    requires !Unterminated(s)
    ensures var p, f := Shown(s, ctx), Filled(Pieces(Protect(s)), ctx);
            (f.Ok? <==> p.Some?) && (p.Some? ==> f == Ok(Str(Held(p.value))))
    decreases |s|
  {
    hide Pieces, Protect, Close, ResolveExpr, Held, Meant;
    if s == "" {
      NoPieces();
      HeldNone();
    } else if ESCAPED <= s {
      EscapeHead(s);
      FilledIsHeld(s[3..], ctx);
      TextsRead(ESC, Pieces(Protect(s[3..])), ctx);
      if Shown(s, ctx).Some? {
        HeldOne(' ', Shown(s[3..], ctx).value);
      }
    } else if OPENER <= s {
      var k := Close(s[2..]);
      RefHead(s, k);
      FilledIsHeld(s[2..][k + 1..], ctx);
      RefFilled(Protect(s[2..][..k]), Pieces(Protect(s[2..][k + 1..])), ctx);
      if Shown(s, ctx).Some? {
        HeldSyms(ToStr(ResolveExpr(Protect(s[2..][..k]), ctx).value), Shown(s[2..][k + 1..], ctx).value);
      }
    } else {
      TextHead(s);
      FilledIsHeld(s[1..], ctx);
      TextRead(s[0], Pieces(Protect(s[1..])), ctx);
      if Shown(s, ctx).Some? {
        HeldOne(s[0], Shown(s[1..], ctx).value);
      }
    }
  }

  lemma HeldNone()
    ensures Held([]) == "" && Meant([]) == ""
  {
  }

  lemma RefFilled(body: string, ps: seq<Piece>, ctx: Context)
    ensures Filled([Ref(body)] + ps, ctx) == Then(ResolveExpr(body, ctx), Filled(ps, ctx))
  {
    hide ResolveExpr, Then;
    assert ([Ref(body)] + ps)[1..] == ps;
  }

  /** The text is one whole reference to a value that is no string: the value is passed on as it is. */
  predicate Typed(s: string, ctx: Context) {
    var ps := Pieces(Protect(s));
    |ps| == 1 && ps[0].Ref? && ResolveExpr(ps[0].body, ctx).Ok? && !ResolveExpr(ps[0].body, ctx).value.Str?
  }

  lemma {:induction false} UnterminatedShows(s: string, ctx: Context)
    requires Unterminated(s)
    ensures Shown(s, ctx).None?
    decreases |s|
  {
    hide ResolveExpr, Protect;
    if ESCAPED <= s {
      UnterminatedShows(s[3..], ctx);
    } else if OPENER <= s {
      if Close(s[2..]) < |s| - 2 {
        UnterminatedShows(s[2..][Close(s[2..]) + 1..], ctx);
      }
    } else {
      UnterminatedShows(s[1..], ctx);
    }
  }

  lemma LoneFilled(ps: seq<Piece>, ctx: Context)
    requires |ps| == 1 && ps[0].Ref?
    ensures var out := ResolveExpr(ps[0].body, ctx);
            (Filled(ps, ctx).Ok? <==> out.Ok?) && (out.Ok? ==> Filled(ps, ctx) == Ok(Str(ToStr(out.value))))
  {
    RefFilled(ps[0].body, [], ctx);
    assert ps == [ps[0]] + [];
    hide ResolveExpr;
    var out := ResolveExpr(ps[0].body, ctx);
    if out.Ok? {
      assert ToStr(out.value) + "" == ToStr(out.value);
    }
  }

  /** A lone reference shows the value it stands for. */
  lemma LoneShown(s: string, ctx: Context)
    requires !Unterminated(s) && Shown(s, ctx).Some?
    requires |Pieces(Protect(s))| == 1 && Pieces(Protect(s))[0].Ref?
    ensures var out := ResolveExpr(Pieces(Protect(s))[0].body, ctx);
            out.Ok? && Shown(s, ctx) == Some(Syms(ToStr(out.value)))
  {
    hide Protect, ResolveExpr, Close, Pieces;
    if s == "" {
      NoPieces();
    } else if ESCAPED <= s {
      EscapeHead(s);
    } else if OPENER <= s {
      var k := Close(s[2..]);
      RefHead(s, k);
      var rest := s[2..][k + 1..];
      NoPiecesNoText(rest);
      assert Syms(ToStr(ResolveExpr(Protect(s[2..][..k]), ctx).value)) + []
               == Syms(ToStr(ResolveExpr(Protect(s[2..][..k]), ctx).value));
    } else {
      TextHead(s);
    }
  }

  lemma NoPiecesNoText(s: string)
    ensures Pieces(Protect(s)) == [] ==> s == ""
  {
    if s != "" {
      SomePieces(Protect(s));
    }
  }

  lemma SomePieces(s: string)
    ensures s != "" ==> Pieces(s) != []
  {
  }

  /** Substitution, exactly, on every text and in every context: it succeeds where the one pass does, and it
      prints what is meant if and only if the stand-in begins nowhere else in what is printed, or the text is
      one reference to a value that is no string. */
  lemma SubstituteExact(s: string, ctx: Context)
    ensures Substitute(Str(s), ctx).Ok? <==> Shown(s, ctx).Some?
    ensures Shown(s, ctx).Some? ==>
              (ToStr(Substitute(Str(s), ctx).value) == Meant(Shown(s, ctx).value) <==>
                Clean(Shown(s, ctx).value) || Typed(s, ctx))
  {
    hide Pieces, Protect, ResolveExpr, HasOpener, Shown, Clean, Held, Meant, Filled, Unprotect;
    OpenExactly(s);
    if Unterminated(s) {
      UnterminatedShows(s, ctx);
    } else {
      FilledIsHeld(s, ctx);
      var ps := Pieces(Protect(s));
      if |ps| == 1 && ps[0].Ref? {
        LoneFilled(ps, ctx);
      }
      if Shown(s, ctx).Some? {
        UnprotectExact(Shown(s, ctx).value);
        if |ps| == 1 && ps[0].Ref? {
          LoneShown(s, ctx);
          var v := ToStr(ResolveExpr(ps[0].body, ctx).value);
          assert Syms(v) + [] == Syms(v);
          HeldSyms(v, []);
          HeldNone();
          assert v + "" == v;
        }
      }
    }
  }

  /** Where no reference holds an escape, what is meant is the one pass over the raw text. */
  lemma {:induction false} ShownIsOnePass(s: string, ctx: Context)
    requires PlainBodies(s)
    ensures var p, o := Shown(s, ctx), OnePass(s, ctx);
            (o.Ok? <==> p.Some?) && (p.Some? ==> o == Ok(Str(Meant(p.value))))
    decreases |s|
  {
    hide Protect, Close, ResolveExpr, Held, Meant, HasEscape;
    if s == "" {
      HeldNone();
    } else if ESCAPED <= s {
      ShownIsOnePass(s[3..], ctx);
      if Shown(s, ctx).Some? {
        HeldOne(' ', Shown(s[3..], ctx).value);
      }
    } else if OPENER <= s {
      var k := Close(s[2..]);
      if k < |s| - 2 {
        RefHead(s, k);
        ShownIsOnePass(s[2..][k + 1..], ctx);
        if Shown(s, ctx).Some? {
          HeldSyms(ToStr(ResolveExpr(s[2..][..k], ctx).value), Shown(s[2..][k + 1..], ctx).value);
        }
      }
    } else {
      ShownIsOnePass(s[1..], ctx);
      if Shown(s, ctx).Some? {
        HeldOne(s[0], Shown(s[1..], ctx).value);
      }
    }
  }

  lemma {:induction false} NulFreeClean(p: seq<Sym>)
    requires Ch('\0') !in p
    ensures Clean(p)
  {
    if p != [] {
      NulFreeClean(p[1..]);
      if p[0].Ch? {
        assert p[0] in p && Held(p)[0] == p[0].c && ESC[0] == '\0';
      }
    }
  }

  lemma {:induction false} ShownNulFree(s: string, ctx: Context)
    requires NulFree(s) && PlainBodies(s) && NulFreeContext(ctx)
    ensures Shown(s, ctx).Some? ==> Ch('\0') !in Shown(s, ctx).value
    decreases |s|
  {
    hide Protect, Close, ResolveExpr, HasEscape, NulFreeContext, ToStr;
    if s == "" {
    } else if ESCAPED <= s {
      ShownNulFree(s[3..], ctx);
    } else if OPENER <= s {
      var k := Close(s[2..]);
      if k < |s| - 2 {
        RefHead(s, k);
        ShownNulFree(s[2..][k + 1..], ctx);
        ExprNulFree(s[2..][..k], ctx);
      }
    } else {
      ShownNulFree(s[1..], ctx);
    }
  }

  /** Inertness. Over NUL-free text and values, substitution is the one left-to-right pass: it succeeds
      on the same texts and prints the same characters, so nothing a value contains is ever read as a
      reference. A text that is one whole reference keeps its value's type. */
  lemma SubstituteIsOnePass(s: string, ctx: Context)
    requires NulFree(s) && PlainBodies(s) && NulFreeContext(ctx)
    ensures Substitute(Str(s), ctx).Ok? <==> OnePass(s, ctx).Ok?
    ensures OnePass(s, ctx).Ok? ==> ToStr(Substitute(Str(s), ctx).value) == ToStr(OnePass(s, ctx).value)
  {
    hide NulFree, PlainBodies, NulFreeContext, Substitute, OnePass, Shown, Clean, Typed, Meant;
    SubstituteExact(s, ctx);
    ShownIsOnePass(s, ctx);
    ShownNulFree(s, ctx);
    if Shown(s, ctx).Some? {
      NulFreeClean(Shown(s, ctx).value);
    }
  }

  // --------------------------------------------------------------------------------- escaping

  /** Every opener escaped. */
  function Escape(s: string): (e: string)
    ensures forall c | c in e :: c == '$' || c == '{' || c in s
    decreases |s|
  {
    if s == "" then ""
    else if OPENER <= s then ESCAPED + Escape(s[2..])
    else [s[0]] + Escape(s[1..])
  }

  lemma EscapeOpens(s: string)
    ensures !(OPENER <= Escape(s))
    ensures Escape(s) != "" && Escape(s)[0] == '{' ==> s != "" && s[0] == '{'
    decreases |s|
  {
    if OPENER <= s {
      assert Escape(s)[1] == ESCAPED[1];
    } else if s != "" {
      EscapeOpens(s[1..]);
      assert s == [s[0]] + s[1..];
      OpenerHead(s[0], s[1..]);
      OpenerHead(s[0], Escape(s[1..]));
    }
  }

  lemma OpenerInside(e: string)
    requires ESCAPED <= e
    ensures OPENER <= e[1..]
  {
    assert e[1..][0] == e[1] == ESCAPED[1] && e[1..][1] == e[2] == ESCAPED[2];
  }

  predicate NoRefs(ps: seq<Piece>) { forall i | 0 <= i < |ps| :: ps[i].Text? }

  lemma {:induction false} EscapeNoRefs(s: string)
    ensures NoRefs(Pieces(Protect(Escape(s))))
    decreases |s|
  {
    hide Pieces, Protect;
    var e := Escape(s);
    if s == "" {
      NoPieces();
    } else if OPENER <= s {
      EscapeNoRefs(s[2..]);
      assert e[3..] == Escape(s[2..]);
      EscapeHead(e);
    } else {
      EscapeNoRefs(s[1..]);
      EscapeOpens(s);
      EscapeOpens(s[1..]);
      assert e[1..] == Escape(s[1..]);
      if ESCAPED <= e {
        OpenerInside(e);
      }
      TextHead(e);
    }
  }

  /** The text with its openers held back. */
  function Marked(s: string): seq<Sym>
    decreases |s|
  {
    if s == "" then []
    else if OPENER <= s then [Open] + Marked(s[2..])
    else [Ch(s[0])] + Marked(s[1..])
  }

  /** The escaped text stands for the text, whatever the context. */
  lemma {:induction false} EscapeShows(s: string, ctx: Context)
    ensures Shown(Escape(s), ctx) == Some(Marked(s)) && Meant(Marked(s)) == s
    decreases |s|
  {
    hide ResolveExpr, Protect, Close, Meant, Held;
    var e := Escape(s);
    if s == "" {
      HeldNone();
    } else if OPENER <= s {
      EscapeShows(s[2..], ctx);
      HeldOne(' ', Marked(s[2..]));
      assert e[3..] == Escape(s[2..]) && s == OPENER + s[2..];
    } else {
      EscapeShows(s[1..], ctx);
      HeldOne(s[0], Marked(s[1..]));
      assert e[1..] == Escape(s[1..]) && e[0] == s[0] && s == [s[0]] + s[1..];
      EscapeOpens(s);
      EscapeOpens(s[1..]);
      if ESCAPED <= e {
        OpenerInside(e);
      }
    }
  }

  /** The stand-in nowhere stands in the text, whole or with an opener in the place of its last character. */
  predicate Apart(s: string) {
    s != "" ==> !(ESC <= s) && !(ESC[..|ESC| - 1] + OPENER <= s) && Apart(s[1..])
  }

  lemma SameHead(c: char, e: string, x: char, h: string)
    ensures [c] + e <= [x] + h <==> c == x && e <= h
  {
    if [c] + e <= [x] + h {
      assert ([c] + e)[0] == ([x] + h)[0];
      forall i | 0 <= i < |e| ensures e[i] == h[i] {
        assert ([c] + e)[i + 1] == ([x] + h)[i + 1];
      }
    }
  }

  lemma EscTail(j: nat)
    requires 0 <= j < |ESC| - 1
    ensures ESC[j..] == [ESC[j]] + ESC[j + 1..]
    ensures ESC[j..|ESC| - 1] + OPENER == [ESC[j]] + (ESC[j + 1..|ESC| - 1] + OPENER)
    ensures ESC[j] != '$' && (j > 0 ==> ESC[j] != '\0')
  {
  }

  /** Where a tail of the stand-in begins once the openers are held back. */
  lemma {:induction false} HeldTail(s: string, j: nat)
    requires 0 < j < |ESC|
    ensures ESC[j..] <= Held(Marked(s)) <==> ESC[j..] <= s || ESC[j..|ESC| - 1] + OPENER <= s
    decreases |s|, 1
  {
    hide Held;
    HeldNone();
    if s == "" {
    } else if OPENER <= s {
      HeldOne(' ', Marked(s[2..]));
      if j < |ESC| - 1 {
        EscTail(j);
      }
    } else {
      HeldOne(s[0], Marked(s[1..]));
      if j < |ESC| - 1 {
        HeldTailStep(s, j);
      }
    }
  }

  lemma {:induction false} HeldTailStep(s: string, j: nat)
    requires 0 <= j < |ESC| - 1 && s != "" && !(OPENER <= s)
    ensures ESC[j..] <= Held(Marked(s)) <==> ESC[j..] <= s || ESC[j..|ESC| - 1] + OPENER <= s
    decreases |s|, 0
  {
    var e, o, h := ESC[j + 1..], ESC[j + 1..|ESC| - 1] + OPENER, Held(Marked(s[1..]));
    HeldTail(s[1..], j + 1);
    HeldOne(s[0], Marked(s[1..]));
    EscTail(j);
    assert s == [s[0]] + s[1..];
    hide *;
    SameHead(ESC[j], e, s[0], h);
    SameHead(ESC[j], e, s[0], s[1..]);
    SameHead(ESC[j], o, s[0], s[1..]);
  }

  lemma {:induction false} ApartIsClean(s: string)
    ensures Clean(Marked(s)) <==> Apart(s)
    decreases |s|
  {
    hide Held;
    if s == "" {
    } else if OPENER <= s {
      assert s[0] == '$' && s[1] == '{' && s[1..][1..] == s[2..] && s[1..][0] == '{';
      EscTail(0);
      ApartIsClean(s[2..]);
    } else {
      ApartIsClean(s[1..]);
      HeldTailStep(s, 0);
      assert ESC[0..] == ESC && ESC[0..|ESC| - 1] == ESC[..|ESC| - 1];
    }
  }

  /** Escaping then substituting succeeds on every text in every context, and gives the text back if and only
      if the stand-in does not stand in it. */
  lemma EscapeRoundTrip(s: string, ctx: Context)
    ensures Substitute(Str(Escape(s)), ctx).Ok?
    ensures ToStr(Substitute(Str(Escape(s)), ctx).value) == s <==> Apart(s)
  {
    hide Pieces, Protect, Escape, Shown, Substitute, Clean, Apart, Meant, Marked;
    SubstituteExact(Escape(s), ctx);
    EscapeShows(s, ctx);
    ApartIsClean(s);
    EscapeNoRefs(s);
  }

  lemma PlainCharPasses(c: char, t: string, ctx: Context)
    requires c != '$'
    ensures OnePass([c] + t, ctx) == Then(Ok(Str([c])), OnePass(t, ctx))
    ensures PlainBodies([c] + t) <==> PlainBodies(t)
  {
    hide ResolveExpr, HasEscape, Close, Then;
    var s := [c] + t;
    assert s[0] == c && OPENER[0] == '$' == ESCAPED[0] && s[1..] == t;
  }

  lemma {:induction false} DollarFreePasses(a: string, t: string, ctx: Context)
    requires '$' !in a
    ensures OnePass(a + t, ctx) == Then(Ok(Str(a)), OnePass(t, ctx))
    ensures PlainBodies(a + t) <==> PlainBodies(t)
    decreases |a|
  {
    hide OnePass, PlainBodies;
    if a == "" {
      assert a + t == t;
      OnePassPrints(t, ctx);
    } else {
      assert a[0] in a && a == [a[0]] + a[1..] && a + t == [a[0]] + (a[1..] + t);
      DollarFreePasses(a[1..], t, ctx);
      PlainCharPasses(a[0], a[1..] + t, ctx);
      ThenThen([a[0]], a[1..], OnePass(t, ctx));
    }
  }

  lemma OnePassPrints(t: string, ctx: Context)
    ensures Then(Ok(Str("")), OnePass(t, ctx)) == OnePass(t, ctx)
  {
    hide ResolveExpr, Close;
  }

  lemma RefPasses(body: string, t: string, ctx: Context)
    requires '}' !in body && !HasEscape(body)
    ensures OnePass(OPENER + (body + "}" + t), ctx) == Then(ResolveExpr(body, ctx), OnePass(t, ctx))
    ensures PlainBodies(OPENER + (body + "}" + t)) <==> PlainBodies(t)
  {
    hide ResolveExpr, HasEscape;
    var u := body + "}" + t;
    var s := OPENER + u;
    OpenerProtect(u);
    CloseAt(body, t);
    hide Close;
    assert s[2..] == u && u[..|body|] == body && u[|body| + 1..] == t;
  }

  lemma ThenJoins(x: Out, y: Out, z: Out)
    ensures Then(Then(x, y), z) == Then(x, Then(y, z))
  {
    if x.Ok? && y.Ok? && z.Ok? {
      var a, b, c := ToStr(x.value), ToStr(y.value), ToStr(z.value);
      assert a + b + c == a + (b + c);
    }
  }

  /** a ends where no escape and no opener is begun. */
  predicate EndsClean(a: string) { a == "" || a[|a| - 1] != '$' }

  lemma HeadsJoin(a: string, b: string)
    requires a != "" && EndsClean(a) && (OPENER <= a ==> |a| > 2)
    ensures ESCAPED <= a + b <==> ESCAPED <= a
    ensures OPENER <= a + b <==> OPENER <= a
    ensures ESCAPED <= a ==> (a + b)[3..] == a[3..] + b && EndsClean(a[3..])
    ensures (a + b)[0] == a[0] && (a + b)[1..] == a[1..] + b && EndsClean(a[1..])
  {
    assert (a + b)[..|a|] == a;
    if |a| >= 2 {
      assert (a + b)[1] == a[1];
    }
  }

  lemma RefsJoin(a: string, b: string)
    requires OPENER <= a && !(ESCAPED <= a) && Close(a[2..]) < |a| - 2
    ensures var k := Close(a[2..]);
            && Close((a + b)[2..]) == k && (a + b)[2..][..k] == a[2..][..k]
            && (a + b)[2..][k + 1..] == a[2..][k + 1..] + b && k < |(a + b)[2..]|
  {
    var k := Close(a[2..]);
    var body, rest := a[2..][..k], a[2..][k + 1..];
    assert a[2..] == body + "}" + rest;
    assert (a + b)[2..] == body + "}" + (rest + b);
    CloseAt(body, rest + b);
    hide Close;
  }

  /** One pass over two texts is one pass over each, unless the first leaves a reference or a dollar open. */
  lemma {:induction false} OnePassJoins(a: string, b: string, ctx: Context)
    requires !Unterminated(a) && EndsClean(a)
    ensures OnePass(a + b, ctx) == Then(OnePass(a, ctx), OnePass(b, ctx))
    ensures PlainBodies(a + b) <==> PlainBodies(a) && PlainBodies(b)
    decreases |a|
  {
    hide ResolveExpr, HasEscape, Close, Then, EndsClean;
    if a == "" {
      assert a + b == b;
      OnePassPrints(b, ctx);
    } else {
      HeadsJoin(a, b);
      if ESCAPED <= a {
        OnePassJoins(a[3..], b, ctx);
        ThenJoins(Ok(Str(OPENER)), OnePass(a[3..], ctx), OnePass(b, ctx));
      } else if OPENER <= a {
        RefsJoin(a, b);
        var k := Close(a[2..]);
        RestClean(a, k);
        OnePassJoins(a[2..][k + 1..], b, ctx);
        ThenJoins(ResolveExpr(a[2..][..k], ctx), OnePass(a[2..][k + 1..], ctx), OnePass(b, ctx));
      } else {
        OnePassJoins(a[1..], b, ctx);
        ThenJoins(Ok(Str([a[0]])), OnePass(a[1..], ctx), OnePass(b, ctx));
      }
    }
  }

  lemma RestClean(a: string, k: nat)
    requires EndsClean(a) && k + 3 <= |a|
    ensures EndsClean(a[2..][k + 1..])
  {
  }

  /** A value stands in the text exactly as it is, whatever references it seems to contain: the text before
      it, the value and the text after it are substituted on their own. */
  lemma ValueVerbatim(before: string, body: string, after: string, ctx: Context)
    requires !Unterminated(before) && EndsClean(before) && '}' !in body
    requires PlainBodies(before) && PlainBodies(after) && !HasEscape(body)
    requires NulFree(before) && NulFree(body) && NulFree(after) && NulFreeContext(ctx)
    ensures var whole := Substitute(Str(before + (OPENER + (body + "}" + after))), ctx);
            var pre, v, post := Substitute(Str(before), ctx), ResolveExpr(body, ctx), Substitute(Str(after), ctx);
            && (whole.Ok? <==> pre.Ok? && v.Ok? && post.Ok?)
            && (whole.Ok? ==> ToStr(whole.value) == ToStr(pre.value) + (ToStr(v.value) + ToStr(post.value)))
  {
    hide ResolveExpr, HasEscape, Substitute, OnePass, PlainBodies, NulFreeContext, Unterminated;
    RefPasses(body, after, ctx);
    OnePassJoins(before, OPENER + (body + "}" + after), ctx);
    assert '\0' !in OPENER;
    SubstituteIsOnePass(before, ctx);
    SubstituteIsOnePass(after, ctx);
    SubstituteIsOnePass(before + (OPENER + (body + "}" + after)), ctx);
  }

  lemma EmptyPass(ctx: Context)
    ensures OnePass("", ctx) == Ok(Str("")) && PlainBodies("")
  {
  }

  // ------------------------------------------------------------- what the small pieces amount to

  lemma {:induction false} DigitsRead(n: nat)
    ensures AllDigits(Digits(n)) && Digits(n) != "" && Natural(Digits(n)) == n
  {
    var last := '0' + (n % 10) as char;
    assert Digit(last) && DigitValue(last) == n % 10;
    if n < 10 {
      assert Digits(n)[..0] == "";
    } else {
      DigitsRead(n / 10);
      assert Digits(n)[..|Digits(n)| - 1] == Digits(n / 10);
    }
  }

  lemma DecimalRead(n: int)
    ensures IsInt(Decimal(n)) && ParseInt(Decimal(n)) == n
  {
    var t := Decimal(n);
    DigitsRead(if n < 0 then -n else n);
    hide Digits, Natural;
    if n < 0 {
      assert t[0] == '-' && t[1..] == Digits(-n);
    } else {
      assert '0' <= t[0] <= '9';
    }
  }

  lemma DecimalEnds(n: int)
    ensures var t := Decimal(n); t != "" && (Digit(t[0]) || t[0] == '-') && Digit(t[|t| - 1])
  {
    DigitsRead(if n < 0 then -n else n);
    hide Digits, Natural;
  }

  /** An integer written as an argument is that integer. */
  lemma IntLiteralRoundTrip(n: int, ctx: Context)
    ensures ResolveArg(Decimal(n), ctx) == Ok(Int(n))
  {
    DecimalRead(n);
    DecimalEnds(n);
    hide Decimal, IsInt, ParseInt;
    var t := Decimal(n);
    assert StripLeft(t) == t && StripRight(t) == t;
    hide StripLeft, StripRight;
    assert NameLen(t) == 0 && !IsLiteral(t);
  }

  /** Slug characters and single dashes. */
  predicate Tidy(s: string) {
    && (forall i | 0 <= i < |s| :: SlugChar(s[i]) || s[i] == '-')
    && forall i, j | 0 <= i && j == i + 1 < |s| :: s[i] != '-' || s[j] != '-'
  }

  lemma {:induction false} DashedTidy(s: string, open: bool)
    ensures Tidy(Dashed(s, open))
    ensures open && Dashed(s, open) != "" ==> Dashed(s, open)[0] != '-'
    decreases |s|
  {
    if s != "" {
      if SlugChar(Lower(s[0])) {
        DashedTidy(s[1..], false);
      } else {
        DashedTidy(s[1..], true);
      }
    }
  }

  lemma {:induction false} TrimTidy(s: string)
    requires Tidy(s)
    ensures var t := TrimDashes(s); Tidy(t) && (t != "" ==> t[0] != '-' && t[|t| - 1] != '-')
    decreases |s|
  {
    if s != "" && s[0] == '-' {
      TrimTidy(s[1..]);
    } else if s != "" && s[|s| - 1] == '-' {
      TrimTidy(s[..|s| - 1]);
    }
  }

  /** A slug is never empty, holds only lower-case letters, digits and single dashes, and has no dash at
      either end. */
  lemma SlugShape(v: Value)
    ensures var t := Slug(v); t != "" && Tidy(t) && t[0] != '-' && t[|t| - 1] != '-'
  {
    DashedTidy(ToStr(v), false);
    TrimTidy(Dashed(ToStr(v), false));
  }

  // ---------------------------------------------------------------------- why the two guards stand

  lemma {:induction false} DollarFreeProtect(v: string)
    requires '$' !in v
    ensures Protect(v) == v
    decreases |v|
  {
    if v != "" {
      assert v[0] in v && ESCAPED[0] == '$';
      DollarFreeProtect(v[1..]);
    }
  }

  lemma StandInPasses(ctx: Context)
    ensures OnePass(ESC, ctx) == Ok(Str(ESC))
  {
    EscPlain();
    DollarFreePasses(ESC, "", ctx);
    EmptyPass(ctx);
    hide OnePass;
    assert ESC + "" == ESC;
  }

  lemma StandInPieces()
    ensures Pieces(Protect(ESC)) == Texts(ESC) + [] && !HasOpener(ESC)
  {
    EscPlain();
    DollarFreeProtect(ESC);
    TextPieces(ESC, "");
    DollarFreeOpener(ESC, "");
    hide Protect, Texts;
    assert ESC + "" == ESC && Pieces("") == [];
  }

  /** A text that already contains the stand-in is not passed through: it turns into an opener. */
  lemma StandInMisread(ctx: Context)
    ensures OnePass(ESC, ctx) == Ok(Str(ESC))
    ensures Substitute(Str(ESC), ctx) == Ok(Str(OPENER))
  {
    StandInPasses(ctx);
    StandInPieces();
    TextsRead(ESC, [], ctx);
    UnprotectEsc("");
    assert |Texts(ESC) + []| > 1;
    hide Protect, Pieces, Texts, OnePass, HasOpener;
    assert ESC + "" == ESC && Plain([]) == "" && Filled([], ctx) == Ok(Str(""));
    assert OPENER + Unprotect("") == OPENER;
  }

  lemma SplitOnce(a: string, b: string, sep: char)
    requires sep !in a && sep !in b
    ensures Split(a + [sep] + b, sep) == [a, b]
  {
    SplitCons(a, b, sep);
    SplitNone(b, sep);
  }

  /** A parameter reference by its name, when the name is plain at its ends. */
  lemma ParamRef(name: string, ctx: Context)
    requires name != "" && '.' !in name && !Space(name[|name| - 1])
    ensures ResolveExpr("params." + name, ctx) == if name in ctx.params then Ok(ctx.params[name]) else Fail
  {
    var e := "params." + name;
    assert e == "params" + ['.'] + name;
    SplitOnce("params", name, '.');
    assert e[0] == 'p' && e[|e| - 1] == name[|name| - 1];
    assert Strip(e) == e;
    assert e[6] == '.' && e[5] == 's' && e[4] == 'm' && e[3] == 'a' && e[2] == 'r' && e[1] == 'a';
    NameStops(e, 6);
  }

  lemma {:induction false} NameStops(e: string, k: nat)
    requires k < |e| && !NameChar(e[k]) && forall i | 0 <= i < k :: NameChar(e[i])
    ensures NameLen(e) == k
    decreases k
  {
    if k > 0 {
      NameStops(e[1..], k - 1);
    }
  }

  lemma ProtectPlain(c: char, t: string)
    requires c != '$'
    ensures Protect([c] + t) == [c] + Protect(t)
  {
    var s := [c] + t;
    assert s[0] == c && ESCAPED[0] == '$' && s[1..] == t;
  }

  lemma {:induction false} ProtectPrefix(v: string, t: string)
    requires '$' !in v
    ensures Protect(v + t) == v + Protect(t)
    decreases |v|
  {
    hide Protect;
    if v == "" {
      assert v + t == t;
    } else {
      assert v[0] in v;
      ProtectPrefix(v[1..], t);
      ProtectPlain(v[0], v[1..] + t);
      assert v + t == [v[0]] + (v[1..] + t);
      assert [v[0]] + (v[1..] + Protect(t)) == v + Protect(t);
    }
  }

  lemma ProtectedRef()
    ensures Pieces(Protect(OPENER + ("params." + ESCAPED + "}"))) == [Ref("params." + ESC)]
  {
    var t := "params." + (ESCAPED + "}");
    assert "params." + ESCAPED + "}" == t;
    assert '$' !in "params.";
    ProtectPrefix("params.", ESCAPED + "}");
    assert (ESCAPED + "}")[3..] == "}" && ESCAPED <= ESCAPED + "}";
    DollarFreeProtect("}");
    OpenerProtect(t);
    EscPlain();
    assert '}' !in "params." + ESC;
    RefPieces("params." + ESC, "");
    hide Protect;
    assert "params." + (ESC + "}") == "params." + ESC + "}" + "";
    assert [Ref("params." + ESC)] + [] == [Ref("params." + ESC)];
  }

  lemma RawRef(ctx: Context)
    ensures OnePass(OPENER + ("params." + ESCAPED + "}"), ctx) == Then(ResolveExpr("params." + ESCAPED, ctx), Ok(Str("")))
  {
    var raw := "params." + ESCAPED;
    var s := OPENER + (raw + "}");
    CloseAt(raw, "");
    assert raw + "}" + "" == raw + "}" && s[2..] == raw + "}";
    OpenerProtect(raw + "}");
    EmptyPass(ctx);
    hide ResolveExpr, Close, Protect;
    assert s[2..][..|raw|] == raw && s[2..][|raw| + 1..] == "";
  }

  lemma LoneRef(s: string, body: string, ctx: Context)
    requires Pieces(Protect(s)) == [Ref(body)]
    ensures Substitute(Str(s), ctx) == Read(ResolveExpr(body, ctx))
  {
    hide ResolveExpr, Protect, Pieces;
    PlainRef(body, []);
    assert [Ref(body)] + [] == [Ref(body)];
  }

  /** An escaped opener inside a reference is resolved in its protected form: the reference to a
      parameter of that name fails although the one pass finds it. */
  lemma EscapedBodyMisread(ctx: Context, v: Value)
    requires ctx.params == map[ESCAPED := v]
    ensures OnePass(OPENER + ("params." + ESCAPED + "}"), ctx).Ok?
    ensures !Substitute(Str(OPENER + ("params." + ESCAPED + "}")), ctx).Ok?
  {
    hide ResolveExpr, Protect, Pieces, OnePass, Substitute;
    ParamRef(ESCAPED, ctx);
    ParamRef(ESC, ctx);
    assert ESC[0] != ESCAPED[0];
    RawRef(ctx);
    ProtectedRef();
    LoneRef(OPENER + ("params." + ESCAPED + "}"), "params." + ESC, ctx);
  }
}
