/** What an expression means. */
module Expressions {
  // Expressions as trees: printed, checked and substituted they come to what the tree says, whatever the nesting.

  import opened Documents
  import opened Strings
  import opened References

  datatype Fn = Default | ConcatFn | SlugFn

  /** A literal in its quotes, a number, a reference of one of the three kinds, or a call. */
  datatype Expr =
    | Lit(quote: char, text: string)
    | Num(n: int)
    | Param(name: string)
    | Output(node: string, name: string)
    | Field(name: string)
    | Invoke(fn: Fn, args: seq<Expr>)

  function FnName(fn: Fn): string {
    match fn
    case Default => "default"
    case ConcatFn => "concat"
    case SlugFn => "slug"
  }

  function Print(e: Expr): string
    decreases e
  {
    match e
    case Lit(quote, text) => [quote] + (text + [quote])
    case Num(n) => Decimal(n)
    case Param(name) => "params" + ['.'] + name
    case Output(node, name) => "nodes" + ['.'] + (node + ['.'] + ("output" + ['.'] + name))
    case Field(name) => "run" + ['.'] + name
    case Invoke(fn, args) => FnName(fn) + ("(" + (PrintAll(args) + ")"))
  }

  function PrintAll(args: seq<Expr>): string
    decreases args
  {
    if args == [] then "" else if |args| == 1 then Print(args[0]) else Print(args[0]) + (", " + PrintAll(args[1..]))
  }

  /** A character that a name may hold. */
  predicate Nameable(c: char) {
    !Space(c) && c != '.' && c != ',' && c != '(' && c != ')' && c != '\'' && c != '"' && c != '}' && c != '$'
  }

  predicate Named(name: string) { name != "" && forall i | 0 <= i < |name| :: Nameable(name[i]) }

  /** Names are plain, and a literal holds neither its own quote nor what a reference could end at. */
  predicate Sayable(e: Expr)
    decreases e
  {
    match e
    case Lit(quote, text) =>
      (quote == '\'' || quote == '"') && quote !in text && '}' !in text && '$' !in text
    case Num(_) => true
    case Param(name) => Named(name)
    case Output(node, name) => Named(node) && Named(name)
    case Field(name) => Named(name)
    case Invoke(_, args) => AllSayable(args)
  }

  predicate AllSayable(args: seq<Expr>)
    decreases args
  {
    args != [] ==> Sayable(args[0]) && AllSayable(args[1..])
  }

  // --------------------------------------------------------------------------------------- meaning

  /** None, the empty text, false and zero count as empty. */
  predicate Empty(v: Value) {
    match v
    case Null => true
    case Str(s) => s == ""
    case Truth(b) => !b
    case Int(n) => n == 0
    case Float(_, zero) => zero
  }

  /** A missing parameter or run field is a refusal; a missing output is only missing. */
  function Mean(e: Expr, ctx: Context): Out
    decreases e
  {
    match e
    case Lit(_, text) => Ok(Str(text))
    case Num(n) => Ok(Int(n))
    case Param(name) => if name in ctx.params then Ok(ctx.params[name]) else Fail
    case Output(node, name) => if ctx.output(node, name).Some? then Ok(ctx.output(node, name).value) else Missing
    case Field(name) => if name in ctx.run then Ok(ctx.run[name]) else Fail
    case Invoke(fn, args) =>
      if fn == Default then
        if |args| != 2 then Fail
        else
          var first := Mean(args[0], ctx);
          if first == Fail || (first.Ok? && !Empty(first.value)) then first else Mean(args[1], ctx)
      else
        var bad := FirstBad(args, ctx);
        if bad.Some? then bad.value
        else if fn == ConcatFn && |args| > 0 then Ok(Str(Joined(args, ctx)))
        else if fn == SlugFn && |args| == 1 then Ok(Str(Slug(Mean(args[0], ctx).value)))
        else Fail
  }

  /** The first argument, from the left, that comes to no value. */
  function FirstBad(args: seq<Expr>, ctx: Context): (r: Option<Out>)
    ensures r.Some? ==> !r.value.Ok?
    ensures r.None? ==> forall i | 0 <= i < |args| :: Mean(args[i], ctx).Ok?
    decreases args
  {
    if args == [] then None
    else if !Mean(args[0], ctx).Ok? then Some(Mean(args[0], ctx))
    else FirstBad(args[1..], ctx)
  }

  /** The printed values, one after the other. */
  function Joined(args: seq<Expr>, ctx: Context): string
    requires forall i | 0 <= i < |args| :: Mean(args[i], ctx).Ok?
    decreases args
  {
    if args == [] then "" else ToStr(Mean(args[0], ctx).value) + Joined(args[1..], ctx)
  }

  // ------------------------------------------------------------------------------ printed expressions

  /** No blank at either end. */
  predicate Tight(s: string) { s != "" && !Space(s[0]) && !Space(s[|s| - 1]) }

  lemma TightStrips(s: string)
    requires Tight(s)
    ensures Strip(s) == s && Strip(" " + s) == s
  {
    var t := " " + s;
    assert t[1..] == s && Space(t[0]);
    assert StripLeft(s) == s && StripLeft(t) == StripLeft(s);
  }

  lemma EndsTight(a: string, b: string)
    requires a != "" && b != "" && !Space(a[0]) && !Space(b[|b| - 1])
    ensures Tight(a + b)
  {
  }

  lemma NameTight(word: string, name: string)
    requires word != "" && !Space(word[0]) && Named(name)
    ensures Tight(word + ['.'] + name)
  {
    EndsTight(word + ['.'], name);
  }

  lemma FnTight(fn: Fn, rest: string)
    ensures Tight(FnName(fn) + ("(" + (rest + ")")))
  {
    EndsTight(FnName(fn) + "(" + rest, ")");
    assert FnName(fn) + "(" + rest + ")" == FnName(fn) + ("(" + (rest + ")"));
  }

  lemma PrintTight(e: Expr)
    requires Sayable(e)
    ensures Tight(Print(e))
  {
    match e
    case Lit(quote, text) => EndsTight([quote] + text, [quote]); assert [quote] + text + [quote] == Print(e);
    case Num(n) => DecimalEnds(n);
    case Param(name) => NameTight("params", name);
    case Output(node, name) => EndsTight("nodes" + ['.'] + (node + ['.']), "output" + ['.'] + name);
      assert "nodes" + ['.'] + (node + ['.']) + ("output" + ['.'] + name) == Print(e);
    case Field(name) => NameTight("run", name);
    case Invoke(fn, args) => FnTight(fn, PrintAll(args));
  }

  // ------------------------------------------------------------------------------- splitting arguments

  lemma {:induction false} FeedAllJoins(st: Scan, a: string, b: string)
    ensures FeedAll(st, a + b) == FeedAll(FeedAll(st, a), b)
    decreases |a|
  {
    hide Feed;
    if a == "" {
      assert a + b == b;
    } else {
      assert (a + b)[1..] == a[1..] + b;
      FeedAllJoins(Feed(st, a[0]), a[1..], b);
    }
  }

  /** Characters that the splitter passes over anywhere outside quotes. */
  predicate Quiet(c: char) { c != '\'' && c != '"' && c != '(' && c != ')' && c != ',' }

  predicate AllQuiet(s: string) { forall i | 0 <= i < |s| :: Quiet(s[i]) }

  /** The text is read into the current argument, and nothing is left open. */
  ghost predicate Reads(st: Scan, s: string) { FeedAll(st, s) == st.(buf := st.buf + s) }

  lemma {:induction false} QuietReads(st: Scan, s: string)
    requires st.quote == None && AllQuiet(s)
    ensures Reads(st, s)
    decreases |s|
  {
    if s == "" {
      assert st.buf + "" == st.buf;
    } else {
      QuietReads(Feed(st, s[0]), s[1..]);
      assert st.buf + [s[0]] + s[1..] == st.buf + s;
    }
  }

  lemma {:induction false} QuotedReads(st: Scan, s: string, q: char)
    requires st.quote == Some(q) && q !in s
    ensures FeedAll(st, s + [q]) == st.(buf := st.buf + (s + [q]), quote := None)
    decreases |s|
  {
    var t := s + [q];
    if s == "" {
      assert t[1..] == "" && FeedAll(Feed(st, q), "") == Feed(st, q);
    } else {
      assert t[0] == s[0] && s[0] in s && t[1..] == s[1..] + [q];
      QuotedReads(Feed(st, s[0]), s[1..], q);
      assert st.buf + [s[0]] + (s[1..] + [q]) == st.buf + t;
    }
  }

  lemma ReadsJoin(st: Scan, a: string, b: string)
    requires Reads(st, a) && Reads(st.(buf := st.buf + a), b)
    ensures Reads(st, a + b)
  {
    FeedAllJoins(st, a, b);
    assert st.buf + a + b == st.buf + (a + b);
  }

  lemma FnQuiet(fn: Fn)
    ensures AllQuiet(FnName(fn))
  {
  }

  lemma DecimalQuiet(n: int)
    ensures AllQuiet(Decimal(n))
  {
    DigitsRead(if n < 0 then -n else n);
  }

  lemma NamesQuiet(e: Expr)
    requires Sayable(e) && (e.Param? || e.Output? || e.Field?)
    ensures AllQuiet(Print(e))
  {
    hide Space;
  }

  lemma ParensRead(st: Scan, s: string)
    requires st.quote == None && Reads(st.(depth := st.depth + 1, buf := st.buf + "("), s)
    ensures Reads(st, "(" + (s + ")"))
  {
    var inside := st.(depth := st.depth + 1, buf := st.buf + "(");
    assert ("(" + (s + ")"))[1..] == s + ")" && Feed(st, '(') == inside;
    FeedAllJoins(inside, s, ")");
    var end := FeedAll(inside, s);
    assert ")"[1..] == "" && FeedAll(end, ")") == FeedAll(Feed(end, ')'), "");
    assert st.buf + "(" + s + ")" == st.buf + ("(" + (s + ")"));
  }

  /** A printed expression is read into the current argument, however deep the splitter stands. */
  lemma {:induction false} PrintReads(e: Expr, st: Scan)
    requires Sayable(e) && st.quote == None && st.depth >= 0
    ensures Reads(st, Print(e))
    decreases e
  {
    hide Reads;
    match e
    case Lit(quote, text) => LitReads(e, st);
    case Num(n) =>
      DecimalQuiet(n);
      QuietReads(st, Print(e));
    case Invoke(fn, args) =>
      FnQuiet(fn);
      QuietReads(st, FnName(fn));
      var here := st.(buf := st.buf + FnName(fn));
      PrintAllReads(args, here.(depth := st.depth + 1, buf := here.buf + "("));
      ParensRead(here, PrintAll(args));
      ReadsJoin(st, FnName(fn), "(" + (PrintAll(args) + ")"));
    case _ =>
      NamesQuiet(e);
      QuietReads(st, Print(e));
  }

  lemma LitReads(e: Expr, st: Scan)
    requires e.Lit? && Sayable(e) && st.quote == None
    ensures Reads(st, Print(e))
  {
    var s := Print(e);
    var open := st.(buf := st.buf + [e.quote], quote := Some(e.quote));
    assert s[1..] == e.text + [e.quote] && Feed(st, e.quote) == open;
    QuotedReads(open, e.text, e.quote);
    assert st.buf + [e.quote] + (e.text + [e.quote]) == st.buf + s;
  }

  /** Inside parentheses so are several. */
  lemma {:induction false} PrintAllReads(args: seq<Expr>, st: Scan)
    requires AllSayable(args) && st.quote == None && st.depth > 0
    ensures Reads(st, PrintAll(args))
    decreases args
  {
    hide Reads;
    if args == [] {
      NothingReads(st);
    } else {
      PrintReads(args[0], st);
      if |args| > 1 {
        var p := Print(args[0]);
        var here := st.(buf := st.buf + p);
        CommaReads(here);
        PrintAllReads(args[1..], here.(buf := here.buf + ", "));
        ReadsJoin(here, ", ", PrintAll(args[1..]));
        ReadsJoin(st, p, ", " + PrintAll(args[1..]));
      }
    }
  }

  lemma NothingReads(st: Scan)
    ensures Reads(st, "")
  {
    assert st.buf + "" == st.buf;
  }

  lemma CommaReads(st: Scan)
    requires st.quote == None && st.depth > 0
    ensures Reads(st, ", ")
  {
    assert ", "[1..] == " " && " "[1..] == "";
    assert FeedAll(st, ", ") == FeedAll(Feed(Feed(st, ','), ' '), "");
    assert st.buf + [','] + [' '] == st.buf + ", ";
  }

  function Printed(args: seq<Expr>): seq<string>
    decreases args
  {
    if args == [] then [] else [Print(args[0])] + Printed(args[1..])
  }

  /** The splitter takes printed arguments apart again. */
  lemma {:induction false} ArgsSplit(args: seq<Expr>, done: seq<string>, lead: string)
    requires AllSayable(args) && args != [] && (lead == "" || lead == " ")
    ensures Closed(FeedAll(Scan(done, lead, 0, None), PrintAll(args))) == Some(done + Printed(args))
    decreases args
  {
    hide *;
    var p, st := Print(args[0]), Scan(done, lead, 0, None);
    SayableCons(args);
    PrintReads(args[0], st);
    PrintTight(args[0]);
    LeadStrips(lead, p);
    ReadsIs(st, p);
    if |args| == 1 {
      PrintOne(args);
      LastArg(done, lead + p, p);
    } else {
      PrintMore(args);
      FeedAllJoins(st, p, ", " + PrintAll(args[1..]));
      NextArg(st.(buf := lead + p), PrintAll(args[1..]), p);
      ArgsSplit(args[1..], done + [p], " ");
      assert done + [p] + Printed(args[1..]) == done + ([p] + Printed(args[1..]));
    }
  }

  lemma SayableCons(args: seq<Expr>)
    requires AllSayable(args) && args != []
    ensures Sayable(args[0]) && AllSayable(args[1..])
  {
  }

  lemma LeadStrips(lead: string, p: string)
    requires Tight(p) && (lead == "" || lead == " ")
    ensures Strip(lead + p) == p
  {
    TightStrips(p);
    assert "" + p == p;
  }

  lemma ReadsIs(st: Scan, s: string)
    requires Reads(st, s)
    ensures FeedAll(st, s) == st.(buf := st.buf + s)
  {
  }

  lemma PrintOne(args: seq<Expr>)
    requires |args| == 1
    ensures PrintAll(args) == Print(args[0]) && Printed(args) == [Print(args[0])]
  {
    assert args[1..] == [];
  }

  lemma PrintMore(args: seq<Expr>)
    requires |args| > 1
    ensures PrintAll(args) == Print(args[0]) + (", " + PrintAll(args[1..]))
    ensures Printed(args) == [Print(args[0])] + Printed(args[1..])
  {
  }

  lemma LastArg(done: seq<string>, buf: string, p: string)
    requires Tight(p) && Strip(buf) == p
    ensures Closed(Scan(done, buf, 0, None)) == Some(done + [p])
  {
    hide Strip;
  }

  lemma NextArg(st: Scan, rest: string, p: string)
    requires st.quote == None && st.depth == 0 && Strip(st.buf) == p
    ensures FeedAll(st, ", " + rest) == FeedAll(Scan(st.args + [p], " ", 0, None), rest)
  {
    hide Strip;
    var s := ", " + rest;
    assert s[1..] == " " + rest && (" " + rest)[1..] == rest && "" + [' '] == " ";
  }

  lemma SplitsBack(args: seq<Expr>)
    requires AllSayable(args)
    ensures SplitArgs(PrintAll(args)) == Some(Printed(args))
  {
    hide Sayable;
    if args != [] {
      ArgsSplit(args, [], "");
      assert [] + Printed(args) == Printed(args);
    }
  }

  // ------------------------------------------------------------------------------------- resolving

  predicate IsRef(e: Expr) { e.Param? || e.Output? || e.Field? }

  lemma NamedDotless(name: string)
    requires Named(name)
    ensures '.' !in name && Split(name, '.') == [name]
  {
    SplitNone(name, '.');
  }

  /** A printed reference, at its dots. */
  lemma RefSplits(e: Expr)
    requires Sayable(e) && IsRef(e)
    ensures Split(Print(e), '.') ==
              match e
              case Param(name) => ["params", name]
              case Output(node, name) => ["nodes", node, "output", name]
              case Field(name) => ["run", name]
              case _ => []
  {
    hide Named, Split;
    match e
    case Param(name) =>
      NamedDotless(name);
      SplitCons("params", name, '.');
    case Field(name) =>
      NamedDotless(name);
      SplitCons("run", name, '.');
    case Output(node, name) =>
      NamedDotless(node);
      NamedDotless(name);
      SplitCons("output", name, '.');
      SplitCons(node, "output" + ['.'] + name, '.');
      SplitCons("nodes", node + ['.'] + ("output" + ['.'] + name), '.');
  }

  lemma RefMeans(e: Expr, ctx: Context)
    requires Sayable(e) && IsRef(e)
    ensures ResolveRef(Print(e), ctx) == Mean(e, ctx)
  {
    RefSplits(e);
    hide Sayable, Print, Split;
  }

  /** A printed reference is no literal, no call and no number. */
  lemma RefForm(e: Expr)
    requires Sayable(e) && IsRef(e)
    ensures !IsCall(Print(e)) && !IsLiteral(Print(e)) && !IsInt(Print(e))
  {
    var s := Print(e);
    assert s[|s| - 1] != ')';
    assert s[0] == 'p' || s[0] == 'n' || s[0] == 'r';
  }

  lemma LitForm(e: Expr)
    requires Sayable(e) && e.Lit?
    ensures var s := Print(e); !IsCall(s) && IsLiteral(s) && s[1..|s| - 1] == e.text
  {
    assert NameLen(Print(e)) == 0;
  }

  lemma FnForm(fn: Fn, args: seq<Expr>)
    ensures var s := Print(Invoke(fn, args));
            IsCall(s) && CallName(s) == FnName(fn) && CallBody(s) == PrintAll(args) && !IsLiteral(s)
    ensures KnownFunction(FnName(fn))
    ensures forall n: nat :: ArityOk(FnName(fn), n) <==>
              (fn == Default ==> n == 2) && (fn == ConcatFn ==> n >= 1) && (fn == SlugFn ==> n == 1)
  {
    FnWord(fn);
    CallForm(FnName(fn), PrintAll(args));
  }

  lemma FnWord(fn: Fn)
    ensures var name := FnName(fn);
            name != "" && (forall i | 0 <= i < |name| :: NameChar(name[i])) && KnownFunction(name) &&
            forall n: nat :: ArityOk(name, n) <==>
              (fn == Default ==> n == 2) && (fn == ConcatFn ==> n >= 1) && (fn == SlugFn ==> n == 1)
  {
    FnNames();
    assert FnName(ConcatFn)[0] == 'c' && FnName(SlugFn)[0] == 's';
  }

  lemma CallForm(name: string, body: string)
    requires name != "" && forall i | 0 <= i < |name| :: NameChar(name[i])
    ensures var s := name + ("(" + (body + ")"));
            IsCall(s) && CallName(s) == name && CallBody(s) == body && !IsLiteral(s)
  {
    var s := name + ("(" + (body + ")"));
    assert forall i | 0 <= i < |name| :: s[i] == name[i];
    assert s[|name|] == '(' && s[|s| - 1] == ')';
    NameStops(s, |name|);
    assert s[|name| + 1..|s| - 1] == body;
  }

  lemma {:induction false} PrintedAre(args: seq<Expr>)
    ensures |Printed(args)| == |args| && forall i | 0 <= i < |args| :: Printed(args)[i] == Print(args[i])
    decreases args
  {
    hide Print;
    if args != [] {
      PrintedAre(args[1..]);
    }
  }

  lemma {:induction false} SayableAt(args: seq<Expr>, i: nat)
    requires AllSayable(args) && i < |args|
    ensures Sayable(args[i])
    decreases args
  {
    if i > 0 {
      SayableAt(args[1..], i - 1);
    }
  }

  /** The resolver reads a printed argument as the tree says. */
  lemma {:induction false} ArgMeans(e: Expr, ctx: Context)
    requires Sayable(e)
    ensures ResolveArg(Print(e), ctx) == Mean(e, ctx)
    decreases e, 1
  {
    PrintTight(e);
    TightStrips(Print(e));
    hide Tight, Strip, IsLiteral, IsCall, IsInt, ResolveExpr, ResolveRef, Print, ParseInt;
    match e
    case Lit(_, _) => LitForm(e);
    case Num(n) =>
      PrintNum(n);
      IntLiteralRoundTrip(n, ctx);
    case Invoke(fn, args) =>
      FnForm(fn, args);
      CallMeans(e, ctx);
    case _ =>
      RefForm(e);
      RefMeans(e, ctx);
  }

  lemma PrintNum(n: int)
    ensures Print(Num(n)) == Decimal(n)
  {
  }

  /** A call, as the resolver takes it apart. */
  lemma ResolveForms(raw: string, args: seq<string>, ctx: Context)
    requires Strip(raw) == raw && IsCall(raw) && SplitArgs(CallBody(raw)) == Some(args) && KnownFunction(CallName(raw))
    ensures forall i: nat | i < |args| :: |args[i]| <= |CallBody(raw)|
    ensures CallName(raw) == "default" ==>
              ResolveExpr(raw, ctx) ==
                if |args| != 2 then Fail
                else
                  var first := ResolveArg(args[0], ctx);
                  if first.Missing? || (first.Ok? && Blank(first.value)) then ResolveArg(args[1], ctx) else first
    ensures CallName(raw) != "default" ==>
              var vs := ResolveArgs(args, |CallBody(raw)|, ctx);
              ResolveExpr(raw, ctx) ==
                if vs.Bad? then vs.first
                else if !ArityOk(CallName(raw), |vs.values|) then Fail
                else Ok(Apply(CallName(raw), vs.values))
  {
    SplitArgsBounded(CallBody(raw));
    hide ResolveArg, ResolveArgs, Strip, IsCall, Apply, Blank, ArityOk, KnownFunction;
  }

  lemma BlankIsEmpty(v: Value)
    ensures Blank(v) <==> Empty(v)
  {
  }

  /** So it reads a printed call. */
  lemma {:induction false} CallMeans(e: Expr, ctx: Context)
    requires Sayable(e) && e.Invoke?
    ensures ResolveExpr(Print(e), ctx) == Mean(e, ctx)
    decreases e, 0
  {
    hide *;
    var args, raw := e.args, Print(e);
    PrintTight(e);
    TightStrips(raw);
    FnForm(e.fn, args);
    InvokeIs(e);
    SplitsBack(args);
    ResolveForms(raw, Printed(args), ctx);
    PrintedAre(args);
    if e.fn == Default {
      FnNames();
      if |args| == 2 {
        SayableAt(args, 0);
        SayableAt(args, 1);
        ArgMeans(args[0], ctx);
        ArgMeans(args[1], ctx);
        if Mean(args[0], ctx).Ok? {
          BlankIsEmpty(Mean(args[0], ctx).value);
        }
      }
      DefaultMeans(args, ctx);
    } else {
      FnNames();
      ArgsMean(args, |CallBody(raw)|, ctx);
      OtherMeans(e.fn, args, ctx);
      var vs := ResolveArgs(Printed(args), |CallBody(raw)|, ctx);
      if vs.Oks? && ArityOk(FnName(e.fn), |args|) {
        ApplyMeans(e.fn, vs.values);
      }
    }
  }

  lemma InvokeIs(e: Expr)
    requires Sayable(e) && e.Invoke?
    ensures AllSayable(e.args) && e == Invoke(e.fn, e.args)
  {
  }

  lemma FnNames()
    ensures forall fn :: FnName(fn) == "default" <==> fn == Default
  {
    assert |FnName(Default)| == 7 && |FnName(ConcatFn)| == 6 && |FnName(SlugFn)| == 4;
  }

  lemma DefaultMeans(args: seq<Expr>, ctx: Context)
    ensures |args| != 2 ==> Mean(Invoke(Default, args), ctx) == Fail
    ensures |args| == 2 ==>
              var first := Mean(args[0], ctx);
              Mean(Invoke(Default, args), ctx) ==
                if first.Missing? || (first.Ok? && Empty(first.value)) then Mean(args[1], ctx) else first
  {
  }

  lemma OtherMeans(fn: Fn, args: seq<Expr>, ctx: Context)
    requires fn != Default
    ensures var bad := FirstBad(args, ctx);
            Mean(Invoke(fn, args), ctx) ==
              if bad.Some? then bad.value
              else if fn == ConcatFn && |args| > 0 then Ok(Str(Joined(args, ctx)))
              else if fn == SlugFn && |args| == 1 then Ok(Str(Slug(Mean(args[0], ctx).value)))
              else Fail
  {
  }

  lemma ApplyMeans(fn: Fn, vs: seq<Value>)
    requires fn != Default && KnownFunction(FnName(fn)) && ArityOk(FnName(fn), |vs|)
    ensures fn == ConcatFn ==> Apply(FnName(fn), vs) == Str(Concat(vs))
    ensures fn == SlugFn ==> |vs| > 0 && Apply(FnName(fn), vs) == Str(Slug(vs[0]))
  {
  }

  lemma ArgsMeanStep(args: seq<Expr>, bound: nat, ctx: Context)
    requires args != [] && forall i: nat | i < |Printed(args)| :: |Printed(args)[i]| <= bound
    ensures Printed(args) == [Print(args[0])] + Printed(args[1..])
    ensures forall i: nat | i < |Printed(args[1..])| :: |Printed(args[1..])[i]| <= bound
    ensures var v, rest := ResolveArg(Print(args[0]), ctx), ResolveArgs(Printed(args[1..]), bound, ctx);
            ResolveArgs(Printed(args), bound, ctx) ==
              if !v.Ok? then Bad(v) else if rest.Bad? then rest else Oks([v.value] + rest.values)
  {
    hide ResolveArg, Print;
    var more := Printed(args[1..]);
    assert Printed(args) == [Print(args[0])] + more && Printed(args)[1..] == more;
    forall i: nat | i < |more| ensures |more[i]| <= bound {
      assert more[i] == Printed(args)[i + 1];
    }
  }

  lemma NoArgs(bound: nat, ctx: Context)
    ensures Printed([]) == [] && ResolveArgs([], bound, ctx) == Oks([])
    ensures FirstBad([], ctx) == None && Joined([], ctx) == "" && Concat([]) == ""
  {
  }

  lemma JoinedStep(args: seq<Expr>, ctx: Context)
    requires args != []
    ensures FirstBad(args, ctx) == if !Mean(args[0], ctx).Ok? then Some(Mean(args[0], ctx)) else FirstBad(args[1..], ctx)
    ensures FirstBad(args, ctx) == None ==>
              && FirstBad(args[1..], ctx) == None
              && Joined(args, ctx) == ToStr(Mean(args[0], ctx).value) + Joined(args[1..], ctx)
  {
    hide Mean;
  }

  lemma ConcatCons(v: Value, vs: seq<Value>)
    ensures Concat([v] + vs) == ToStr(v) + Concat(vs)
  {
    assert ([v] + vs)[1..] == vs;
  }

  /** And the arguments of a call, from left to right. */
  lemma {:induction false} ArgsMean(args: seq<Expr>, bound: nat, ctx: Context)
    requires AllSayable(args) && forall i: nat | i < |Printed(args)| :: |Printed(args)[i]| <= bound
    ensures var vs, bad := ResolveArgs(Printed(args), bound, ctx), FirstBad(args, ctx);
            if bad.Some? then vs == Bad(bad.value)
            else
              && vs.Oks? && |vs.values| == |args| && Concat(vs.values) == Joined(args, ctx)
              && (args != [] ==> vs.values[0] == Mean(args[0], ctx).value)
    decreases args, 2
  {
    hide *;
    if args == [] {
      NoArgs(bound, ctx);
    } else {
      SayableCons(args);
      ArgsMeanStep(args, bound, ctx);
      ArgMeans(args[0], ctx);
      ArgsMean(args[1..], bound, ctx);
      JoinedStep(args, ctx);
      var rest := ResolveArgs(Printed(args[1..]), bound, ctx);
      if rest.Oks? && Mean(args[0], ctx).Ok? {
        ConcatCons(Mean(args[0], ctx).value, rest.values);
      }
    }
  }

  // ---------------------------------------------------------------------------- as one field of a document

  /** A reference in a text. */
  function Hole(e: Expr): string { OPENER + (Print(e) + "}") }

  lemma NamePlain(name: string)
    requires Named(name)
    ensures '}' !in name && '$' !in name
  {
  }

  lemma DecimalPlain(n: int)
    ensures Calm(Decimal(n))
  {
    DigitsRead(if n < 0 then -n else n);
  }

  /** Nothing at which a reference could end, or another begin. */
  predicate Calm(s: string) { '}' !in s && '$' !in s }

  lemma CalmJoin(a: string, b: string)
    requires Calm(a) && Calm(b)
    ensures Calm(a + b)
  {
  }

  lemma CalmWords()
    ensures forall s | s in {"params.", "nodes.", ".output.", "run.", "default(", "concat(", "slug(", ")", ", ", ""} :: Calm(s)
  {
  }

  lemma RefPlain(e: Expr)
    requires Sayable(e) && IsRef(e)
    ensures Calm(Print(e))
  {
    hide Named;
    match e
    case Param(name) => NamePlain(name);
    case Output(node, name) =>
      NamePlain(node);
      NamePlain(name);
    case Field(name) => NamePlain(name);
  }

  lemma LitPlain(e: Expr)
    requires Sayable(e) && e.Lit?
    ensures Calm(Print(e))
  {
  }

  lemma InvokePlain(fn: Fn, args: seq<Expr>)
    requires Calm(PrintAll(args))
    ensures Calm(Print(Invoke(fn, args)))
  {
    assert Print(Invoke(fn, args)) == FnName(fn) + ("(" + (PrintAll(args) + ")"));
    hide Print, PrintAll;
  }

  lemma {:induction false} PrintPlain(e: Expr)
    requires Sayable(e)
    ensures Calm(Print(e))
    decreases e
  {
    hide *;
    match e
    case Lit(_, _) => LitPlain(e);
    case Num(n) =>
      PrintNum(n);
      DecimalPlain(n);
    case Invoke(fn, args) =>
      InvokeIs(e);
      PrintAllPlain(args);
      InvokePlain(fn, args);
    case _ =>
      RefsLeft(e);
      RefPlain(e);
  }

  lemma RefsLeft(e: Expr)
    ensures IsRef(e) <==> !e.Lit? && !e.Num? && !e.Invoke?
  {
  }

  lemma {:induction false} PrintAllPlain(args: seq<Expr>)
    requires AllSayable(args)
    ensures Calm(PrintAll(args))
    decreases args
  {
    hide Calm, Print, Sayable;
    CalmWords();
    if args != [] {
      PrintPlain(args[0]);
      PrintAllPlain(args[1..]);
      CalmJoin(", ", PrintAll(args[1..]));
      CalmJoin(Print(args[0]), ", " + PrintAll(args[1..]));
    }
  }

  lemma HolePieces(e: Expr)
    requires Sayable(e)
    ensures Pieces(Protect(Hole(e))) == [Ref(Print(e))] && HasOpener(Removed(Hole(e)))
  {
    var body := Print(e);
    PrintPlain(e);
    hide Print, Pieces, Protect, HasOpener;
    DollarFreeProtect(body + "}");
    OpenerProtect(body + "}");
    RefPieces(body, "");
    NoPieces();
    assert body + "}" + "" == body + "}" && [Ref(body)] + [] == [Ref(body)];
    GateExact(Hole(e));
    OpenerOpens(body + "}");
  }

  lemma OpenerOpens(rest: string)
    ensures HasOpener(OPENER + rest)
  {
  }

  /** Substitution of one expression gives what the tree says, with the type of the value, in every context. */
  lemma SubstituteMeans(e: Expr, ctx: Context)
    requires Sayable(e) && (e.Invoke? || IsRef(e))
    ensures Substitute(Str(Hole(e)), ctx) == Read(Mean(e, ctx))
  {
    HolePieces(e);
    LoneRef(Hole(e), Print(e), ctx);
    hide Substitute, Mean, Print, ResolveRef;
    if e.Invoke? {
      CallMeans(e, ctx);
    } else {
      RefForm(e);
      RefMeans(e, ctx);
      PrintTight(e);
      TightStrips(Print(e));
      hide Strip, IsCall;
      assert ResolveExpr(Print(e), ctx) == ResolveRef(Print(e), ctx);
    }
  }

  /** A value without the stand-in for an escaped opener is passed on as it is. */
  lemma ReadPlain(v: Value)
    requires NulFree(ToStr(v))
    ensures Read(Ok(v)) == Ok(v)
  {
    if v.Str? {
      UnprotectNone(v.s);
    }
  }

  lemma {:induction false} UnprotectNone(s: string)
    requires NulFree(s)
    ensures Unprotect(s) == s
    decreases |s|
  {
    if s != "" {
      assert s[0] in s && ESC[0] == '\0';
      UnprotectNone(s[1..]);
    }
  }

  /** default() over one reference: its value where there is one that is not empty, and the literal otherwise. An
      output that is not there falls back; a parameter or run field that is not there is refused. */
  lemma DefaultReads(ref: Expr, text: string, ctx: Context)
    requires Sayable(ref) && IsRef(ref) && '\'' !in text && '}' !in text && '$' !in text && NulFree(text)
    ensures var out := Substitute(Str("${default(" + Print(ref) + ", '" + text + "')}"), ctx);
            match ref
            case Output(node, name) =>
              var v := ctx.output(node, name);
              out == if v.None? || Empty(v.value) then Ok(Str(text)) else Read(Ok(v.value))
            case Param(name) =>
              out == if name !in ctx.params then Fail
                     else if Empty(ctx.params[name]) then Ok(Str(text)) else Read(Ok(ctx.params[name]))
            case Field(name) =>
              out == if name !in ctx.run then Fail
                     else if Empty(ctx.run[name]) then Ok(Str(text)) else Read(Ok(ctx.run[name]))
            case _ => true
  {
    var e := Invoke(Default, [ref, Lit('\'', text)]);
    DefaultPrints(ref, text);
    SubstituteMeans(e, ctx);
    DefaultMeans(e.args, ctx);
    assert Mean(e.args[1], ctx) == Ok(Str(text));
    hide Substitute, Print;
    ReadPlain(Str(text));
  }

  lemma DefaultPrints(ref: Expr, text: string)
    requires Sayable(ref) && IsRef(ref) && '\'' !in text && '}' !in text && '$' !in text
    ensures var e := Invoke(Default, [ref, Lit('\'', text)]);
            Sayable(e) && Hole(e) == "${default(" + Print(ref) + ", '" + text + "')}"
  {
    var lit := Lit('\'', text);
    PairSayable(ref, lit);
    PairPrints(ref, lit);
    LitPrints(text);
    InvokePrints(Default, [ref, lit]);
    hide *;
    DefaultSpelled(Print(ref), text);
  }

  lemma PairSayable(a: Expr, b: Expr)
    requires Sayable(a) && Sayable(b)
    ensures Sayable(Invoke(Default, [a, b]))
  {
    var args := [a, b];
    assert args[1..] == [b] && [b][1..] == [];
    assert AllSayable([b]) && AllSayable(args);
  }

  lemma PairPrints(a: Expr, b: Expr)
    ensures PrintAll([a, b]) == Print(a) + (", " + Print(b))
  {
    PrintMore([a, b]);
    assert [a, b][1..] == [b];
    PrintOne([b]);
  }

  lemma LitPrints(text: string)
    ensures Print(Lit('\'', text)) == "'" + (text + "'")
  {
  }

  lemma InvokePrints(fn: Fn, args: seq<Expr>)
    ensures Hole(Invoke(fn, args)) == OPENER + (FnName(fn) + ("(" + (PrintAll(args) + ")")) + "}")
    ensures FnName(Default) == "default" && FnName(ConcatFn) == "concat" && FnName(SlugFn) == "slug"
  {
    hide PrintAll;
  }

  lemma DefaultSpelled(p: string, text: string)
    ensures OPENER + ("default" + ("(" + ((p + (", " + ("'" + (text + "'")))) + ")")) + "}")
              == "${default(" + p + ", '" + text + "')}"
  {
    var a := "${default(" + p;
    assert "${" + "default" + "(" == "${default(" && ", " + "'" == ", '" && "'" + ")" + "}" == "')}";
    assert OPENER + ("default" + ("(" + ((p + (", " + ("'" + (text + "'")))) + ")")) + "}")
             == a + (", '" + (text + "')}"));
  }

  /** concat() is the printed values, in order. */
  lemma ConcatReads(args: seq<Expr>, ctx: Context)
    requires AllSayable(args) && args != []
    ensures var out := Substitute(Str("${concat(" + PrintAll(args) + ")}"), ctx);
            var bad := FirstBad(args, ctx);
            out == if bad.Some? then bad.value else Read(Ok(Str(Joined(args, ctx))))
  {
    hide *;
    InvokeSayable(ConcatFn, args);
    SubstituteMeans(Invoke(ConcatFn, args), ctx);
    OtherMeans(ConcatFn, args, ctx);
    ReadBad();
    InvokePrints(ConcatFn, args);
    CallSpelled("concat", PrintAll(args));
    assert "${" + "concat" + "(" == "${concat(";
  }

  lemma ReadBad()
    ensures forall o: Out | !o.Ok? :: Read(o) == o
  {
  }

  lemma InvokeSayable(fn: Fn, args: seq<Expr>)
    requires AllSayable(args)
    ensures Sayable(Invoke(fn, args))
  {
  }

  lemma CallSpelled(name: string, p: string)
    ensures OPENER + (name + ("(" + (p + ")")) + "}") == "${" + name + "(" + p + ")}"
  {
    assert ")" + "}" == ")}";
  }

  /** A value as text: true and false in lower case, nothing for null, numbers in decimal. */
  lemma ValueReads(name: string, ctx: Context)
    requires Named(name) && name in ctx.params
    ensures var out := Substitute(Str("${concat(params." + name + ")}"), ctx);
            match ctx.params[name]
            case Str(s) => out == Read(Ok(Str(s)))
            case Int(n) => out == Ok(Str(Decimal(n)))
            case Float(text, _) => out == Read(Ok(Str(text)))
            case Truth(b) => out == Ok(Str(if b then "true" else "false"))
            case Null => out == Ok(Str(""))
  {
    hide *;
    var args := [Param(name)];
    OneParam(name, ctx);
    ConcatReads(args, ctx);
    ParamSpelled(name);
    TextPlain(ctx.params[name]);
  }

  lemma OneParam(name: string, ctx: Context)
    requires Named(name) && name in ctx.params
    ensures AllSayable([Param(name)]) && PrintAll([Param(name)]) == "params" + ['.'] + name
    ensures FirstBad([Param(name)], ctx) == None && Joined([Param(name)], ctx) == ToStr(ctx.params[name])
  {
    var args := [Param(name)];
    assert args[1..] == [];
    PrintOne(args);
    hide Named;
    assert ToStr(ctx.params[name]) + "" == ToStr(ctx.params[name]);
  }

  lemma ParamSpelled(name: string)
    ensures "${concat(" + ("params" + ['.'] + name) + ")}" == "${concat(params." + name + ")}"
  {
    assert "params" + ['.'] == "params." && "${concat(" + "params." == "${concat(params.";
    assert "${concat(" + ("params." + name) == "${concat(" + "params." + name;
  }

  lemma TextPlain(v: Value)
    ensures match v
            case Str(s) => ToStr(v) == s
            case Int(n) => ToStr(v) == Decimal(n) && Read(Ok(Str(Decimal(n)))) == Ok(Str(Decimal(n)))
            case Float(text, _) => ToStr(v) == text
            case Truth(b) => ToStr(v) == (if b then "true" else "false") && Read(Ok(Str(ToStr(v)))) == Ok(Str(ToStr(v)))
            case Null => ToStr(v) == "" && Read(Ok(Str(""))) == Ok(Str(""))
  {
    hide Unprotect;
    match v
    case Int(n) =>
      DecimalNulFree(n);
      ReadPlain(Str(Decimal(n)));
    case Truth(b) => ReadPlain(Str(ToStr(v)));
    case Null => ReadPlain(Str(""));
    case _ =>
  }

  lemma DecimalNulFree(n: int)
    ensures NulFree(Decimal(n))
  {
    DigitsNulFree(if n < 0 then -n else n);
  }

  // -------------------------------------------------------------------------------------- refusals

  /** A body that stands in the text as it is. */
  predicate Standing(body: string) { Tight(body) && '}' !in body && '$' !in body }

  lemma StandingBody(body: string, ctx: Context)
    requires Standing(body)
    ensures Substitute(Str(OPENER + (body + "}")), ctx) == Read(ResolveExpr(body, ctx)) && Strip(body) == body
  {
    TightStrips(body);
    hide Tight, Strip, ResolveExpr, Pieces, Protect, Substitute;
    DollarFreeProtect(body + "}");
    OpenerProtect(body + "}");
    RefPieces(body, "");
    NoPieces();
    assert body + "}" + "" == body + "}" && [Ref(body)] + [] == [Ref(body)];
    LoneRef(OPENER + (body + "}"), body, ctx);
  }

  /** A call of any other function is refused, and so is one whose arguments leave a quote or a parenthesis open. */
  lemma CallRefused(name: string, args: string, ctx: Context)
    requires name != "" && (forall i | 0 <= i < |name| :: 'a' <= name[i] <= 'z' || name[i] == '_')
    requires Standing(name + ("(" + (args + ")")))
    requires (name != "default" && name != "concat" && name != "slug") || !Balanced(args)
    ensures Substitute(Str(OPENER + (name + ("(" + (args + ")")) + "}")), ctx) == Fail
  {
    var body := name + ("(" + (args + ")"));
    StandingBody(body, ctx);
    CallForm(name, args);
    SplitArgsExact(args);
    hide Standing, Substitute, Strip, SplitArgs, IsCall, CallName, CallBody, Balanced;
  }

  /** A reference of any other form is refused. */
  lemma RefRefused(path: string, ctx: Context)
    requires Standing(path) && path[|path| - 1] != ')'
    requires var parts := Split(path, '.');
             && !(parts[0] == "params" && |parts| == 2)
             && !(parts[0] == "nodes" && |parts| == 4 && parts[2] == "output")
             && !(parts[0] == "run" && |parts| == 2)
    ensures Substitute(Str(OPENER + (path + "}")), ctx) == Fail
  {
    StandingBody(path, ctx);
    assert !IsCall(path);
    hide Standing, Substitute, Strip, Split;
  }

  // ----------------------------------------------------------------------------------------- slugs

  /** The lower-case form of an ASCII letter or digit; None for anything else. */
  function Letter(c: char): Option<char> {
    if 'a' <= c <= 'z' || '0' <= c <= '9' then Some(c)
    else if 'A' <= c <= 'Z' then Some((c as int - 'A' as int + 'a' as int) as char)
    else None
  }

  /** The positions of the letters and digits of s, in order. */
  ghost predicate Letters(s: string, at: seq<nat>) {
    && (forall i, j | 0 <= i < j < |at| :: at[i] < at[j])
    && (forall k: nat :: k in at <==> k < |s| && Letter(s[k]).Some?)
  }

  predicate AtLetters(s: string, at: seq<nat>) { forall i | 0 <= i < |at| :: at[i] < |s| && Letter(s[at[i]]).Some? }

  /** The letters and digits at these positions, with a dash wherever something else stands between two. */
  function Spelled(s: string, at: seq<nat>): string
    requires AtLetters(s, at)
  {
    if at == [] then ""
    else
      var last := |at| - 1;
      Spelled(s, at[..last]) + (if last > 0 && at[last] > at[last - 1] + 1 then "-" else "") + [Letter(s[at[last]]).value]
  }

  lemma LetterIs(c: char)
    ensures Letter(c).Some? <==> SlugChar(Lower(c))
    ensures Letter(c).Some? ==> Letter(c).value == Lower(c) && Letter(c).value != '-'
  {
  }

  /** Inside a run of other characters after s. */
  predicate InGap(s: string) { s != "" && Letter(s[|s| - 1]).None? }

  lemma {:induction false} DashedMore(s: string, c: char, open: bool)
    ensures Dashed(s + [c], open) ==
              Dashed(s, open) + (if Letter(c).Some? then [Letter(c).value]
                                 else if (if s == "" then open else InGap(s)) then "" else "-")
    decreases |s|
  {
    hide Letter, Lower, SlugChar;
    LetterIs(c);
    var t := s + [c];
    if s == "" {
      assert t[1..] == "" && Dashed("", false) == "" == Dashed("", true);
    } else {
      LetterIs(s[0]);
      assert t[1..] == s[1..] + [c];
      DashedMore(s[1..], c, Letter(s[0]).None?);
      assert |s| > 1 ==> s[1..][|s[1..]| - 1] == s[|s| - 1];
    }
  }

  lemma {:induction false} SpelledFront(p: string, c: char, at: seq<nat>)
    requires AtLetters(p, at)
    ensures AtLetters(p + [c], at) && Spelled(p + [c], at) == Spelled(p, at)
    decreases |at|
  {
    hide Letter;
    if at != [] {
      SpelledFront(p, c, at[..|at| - 1]);
    }
  }

  /** A leading or trailing dash, where the text begins or ends with something else. */
  function Dash(there: bool): string { if there then "-" else "" }

  lemma LettersFront(p: string, c: char, at: seq<nat>)
    requires Letters(p + [c], at)
    ensures Letter(c).Some? ==> at != [] && at[|at| - 1] == |p| && Letters(p, at[..|at| - 1])
    ensures Letter(c).None? ==> Letters(p, at)
  {
    hide Letter;
    var s := p + [c];
    if Letter(c).Some? {
      assert s[|p|] == c && |p| in at;
      var i :| 0 <= i < |at| && at[i] == |p|;
      assert at[|at| - 1] in at;
      assert i == |at| - 1;
      var front := at[..|at| - 1];
      forall k: nat ensures k in front <==> k < |p| && Letter(p[k]).Some? {
        if k < |p| && Letter(p[k]).Some? {
          assert s[k] == p[k] && k in at;
          var j :| 0 <= j < |at| && at[j] == k;
          assert front[j] == k;
        }
        if k in front {
          var j :| 0 <= j < |front| && front[j] == k;
          assert at[j] == k && at[j] in at && s[k] == p[k];
        }
      }
    } else {
      forall k: nat ensures k in at <==> k < |p| && Letter(p[k]).Some? {
        assert k < |p| ==> s[k] == p[k];
        assert k == |p| ==> s[k] == c;
      }
    }
  }

  lemma LettersGap(p: string, at: seq<nat>)
    requires Letters(p, at)
    ensures AtLetters(p, at)
    ensures at == [] ==> forall i | 0 <= i < |p| :: Letter(p[i]).None?
    ensures at != [] ==> p != "" && (InGap(p) <==> |p| > at[|at| - 1] + 1)
  {
    hide Letter;
    forall i | 0 <= i < |at| ensures at[i] < |p| && Letter(p[at[i]]).Some? {
      assert at[i] in at;
    }
    forall i | 0 <= i < |p| && at == [] ensures Letter(p[i]).None? {
      assert (i as nat) !in at;
    }
    if at != [] {
      var last := at[|at| - 1];
      assert last in at;
      if !InGap(p) {
        assert |p| - 1 in at;
        var i :| 0 <= i < |at| && at[i] == |p| - 1;
      }
    }
  }

  /** The dashed form, with what dashes stand at its ends. */
  function Dashes(s: string, at: seq<nat>): string
    requires AtLetters(s, at)
  {
    if s == "" then "" else if at == [] then "-" else Dash(Letter(s[0]).None?) + Spelled(s, at) + Dash(InGap(s))
  }

  lemma {:induction false} DashedIs(s: string, at: seq<nat>)
    requires Letters(s, at)
    ensures AtLetters(s, at) && Dashed(s, false) == Dashes(s, at)
    decreases |s|
  {
    hide *;
    LettersGap(s, at);
    if s == "" {
      NoDashes(at);
    } else {
      var p, c := s[..|s| - 1], s[|s| - 1];
      assert s == p + [c];
      LettersFront(p, c, at);
      DashedMore(p, c, false);
      var front := if Letter(c).Some? then at[..|at| - 1] else at;
      DashedIs(p, front);
      LettersGap(p, front);
      SpelledFront(p, c, front);
      if Letter(c).Some? {
        LetterEnds(p, c, at);
      } else {
        GapEnds(p, c, at);
        NoGap();
      }
    }
  }

  lemma NoGap()
    ensures !InGap("")
  {
  }

  lemma NoDashes(at: seq<nat>)
    requires AtLetters("", at)
    ensures Dashed("", false) == Dashes("", at)
  {
  }

  lemma SpelledLast(s: string, at: seq<nat>)
    requires AtLetters(s, at) && at != []
    ensures at[|at| - 1] < |s| && Letter(s[at[|at| - 1]]).Some? && AtLetters(s, at[..|at| - 1])
    ensures Spelled(s, at) ==
              Spelled(s, at[..|at| - 1]) + (if |at| > 1 && at[|at| - 1] > at[|at| - 2] + 1 then "-" else "") +
              [Letter(s[at[|at| - 1]]).value]
  {
    hide Letter;
  }

  lemma LetterEnds(p: string, c: char, at: seq<nat>)
    requires AtLetters(p + [c], at) && Letter(c).Some? && at != [] && at[|at| - 1] == |p| && AtLetters(p, at[..|at| - 1])
    requires AtLetters(p + [c], at[..|at| - 1]) && Spelled(p + [c], at[..|at| - 1]) == Spelled(p, at[..|at| - 1])
    requires at[..|at| - 1] == [] ==> forall i | 0 <= i < |p| :: Letter(p[i]).None?
    requires at[..|at| - 1] != [] ==> p != "" && (InGap(p) <==> |p| > at[|at| - 2] + 1)
    ensures Dashes(p + [c], at) == Dashes(p, at[..|at| - 1]) + [Letter(c).value]
  {
    hide *;
    var s, front := p + [c], at[..|at| - 1];
    SpelledLast(s, at);
    SpelledNone(s);
    SpelledNone(p);
    DashesForm(s, at);
    DashesForm(p, front);
    GapAfter(p, c);
    var x, l := Spelled(p, front), [Letter(c).value];
    assert s[|p|] == c && (p != "" ==> s[0] == p[0]);
    if p == "" {
      assert front == [];
      JoinLetter("", "", "", l);
    } else if front == [] {
      JoinLetter("-", "", "", l);
    } else {
      JoinLetter(if Letter(p[0]).None? then "-" else "", x, if InGap(p) then "-" else "", l);
    }
  }

  lemma DashesForm(s: string, at: seq<nat>)
    requires AtLetters(s, at)
    ensures s == "" ==> Dashes(s, at) == ""
    ensures s != "" && at == [] ==> Dashes(s, at) == "-"
    ensures s != "" && at != [] ==>
              Dashes(s, at) == (if Letter(s[0]).None? then "-" else "") + Spelled(s, at) + (if InGap(s) then "-" else "")
  {
    hide Letter, Spelled, AtLetters;
  }

  lemma GapAfter(p: string, c: char)
    ensures InGap(p + [c]) <==> Letter(c).None?
  {
    hide Letter;
  }

  lemma JoinLetter(d: string, x: string, m: string, l: string)
    ensures d + (x + m + l) + "" == d + x + m + l
    ensures "" + "" == "" && "-" + "" + "" == "-" && "" + "" + l == l
  {
  }

  lemma SpelledNone(s: string)
    ensures AtLetters(s, []) && Spelled(s, []) == ""
  {
  }

  lemma GapEnds(p: string, c: char, at: seq<nat>)
    requires AtLetters(p + [c], at) && Letter(c).None? && AtLetters(p, at) && Spelled(p + [c], at) == Spelled(p, at)
    requires at == [] ==> forall i | 0 <= i < |p| :: Letter(p[i]).None?
    requires at != [] ==> p != ""
    ensures Dashes(p + [c], at) == Dashes(p, at) + (if InGap(p) then "" else "-")
  {
    hide Letter, AtLetters, Spelled;
    var s := p + [c];
    assert s[|s| - 1] == c;
    assert p != "" ==> s[0] == p[0];
    assert at == [] && p != "" ==> InGap(p);
    assert "" + "-" == "-" && "-" + "" == "-";
  }

  lemma {:induction false} TrimmedIs(s: string, left: bool, right: bool)
    requires s != "" && s[0] != '-' && s[|s| - 1] != '-'
    ensures TrimDashes(Dash(left) + s + Dash(right)) == s
  {
    var t := Dash(left) + s + Dash(right);
    var u := s + Dash(right);
    assert TrimDashes(s) == s;
    if right {
      assert u[|u| - 1] == '-' && u[..|u| - 1] == s && u[0] == s[0];
    } else {
      assert u == s;
    }
    assert TrimDashes(u) == s;
    if left {
      assert t[0] == '-' && t[1..] == u;
    } else {
      assert t == u;
    }
  }

  lemma SpelledEnds(s: string, at: seq<nat>)
    requires at != [] && AtLetters(s, at)
    ensures var t := Spelled(s, at); t != "" && t[0] != '-' && t[|t| - 1] != '-'
    decreases |at|
  {
    LetterIs(s[at[|at| - 1]]);
    hide Letter;
    if |at| > 1 {
      SpelledEnds(s, at[..|at| - 1]);
    } else {
      assert Spelled(s, at[..0]) == "";
    }
  }

  /** slug() of a text: its letters and digits in order, lower-cased, with one dash for each stretch of anything
      else between two of them, and "x" where it has none. */
  lemma SlugMeans(v: Value, at: seq<nat>)
    requires Letters(ToStr(v), at)
    ensures AtLetters(ToStr(v), at)
    ensures Slug(v) == if at == [] then "x" else Spelled(ToStr(v), at)
  {
    var s := ToStr(v);
    DashedIs(s, at);
    hide Letter, Letters, Dashed, Spelled, AtLetters;
    if at == [] {
      TrimNone();
    } else {
      hide TrimDashes;
      SpelledEnds(s, at);
      TrimmedIs(Spelled(s, at), s != "" && Letter(s[0]).None?, InGap(s));
      TrimNone();
    }
  }

  lemma TrimNone()
    ensures TrimDashes("-") == "" == TrimDashes("")
  {
    assert "-"[1..] == "";
  }

  /** Every text has such positions. */
  lemma {:induction false} LettersOf(s: string) returns (at: seq<nat>)
    ensures Letters(s, at)
    decreases |s|
  {
    hide Letter;
    at := [];
    for k := 0 to |s|
      invariant (forall i, j | 0 <= i < j < |at| :: at[i] < at[j]) && (forall i | 0 <= i < |at| :: at[i] < k)
      invariant forall m: nat :: m in at <==> m < k && Letter(s[m]).Some?
    {
      if Letter(s[k]).Some? {
        at := at + [k];
      }
    }
  }

  lemma SlugNulFree(v: Value)
    ensures NulFree(Slug(v))
  {
    DashedNulFree(ToStr(v), false);
    TrimNulFree(Dashed(ToStr(v), false));
  }

  /** slug() over one reference. */
  lemma SlugReads(ref: Expr, at: seq<nat>, ctx: Context)
    requires Sayable(ref) && IsRef(ref) && Mean(ref, ctx).Ok? && Letters(ToStr(Mean(ref, ctx).value), at)
    ensures var text := ToStr(Mean(ref, ctx).value);
            AtLetters(text, at) &&
            Substitute(Str("${slug(" + Print(ref) + ")}"), ctx) == Ok(Str(if at == [] then "x" else Spelled(text, at)))
  {
    hide *;
    var v := Mean(ref, ctx).value;
    OneSayable(ref);
    SubstituteMeans(Invoke(SlugFn, [ref]), ctx);
    OtherMeans(SlugFn, [ref], ctx);
    OneGood(ref, ctx);
    InvokePrints(SlugFn, [ref]);
    PrintOne([ref]);
    SlugMeans(v, at);
    SlugNulFree(v);
    TextOf(Slug(v));
    ReadPlain(Str(Slug(v)));
    CallSpelled("slug", Print(ref));
    assert "${" + "slug" + "(" == "${slug(";
  }

  lemma TextOf(s: string)
    ensures ToStr(Str(s)) == s
  {
  }

  lemma OneSayable(e: Expr)
    requires Sayable(e)
    ensures Sayable(Invoke(SlugFn, [e])) && IsRef(Invoke(SlugFn, [e])) == false
  {
    assert [e][1..] == [];
  }

  lemma OneGood(e: Expr, ctx: Context)
    requires Mean(e, ctx).Ok?
    ensures FirstBad([e], ctx) == None
  {
    assert [e][1..] == [];
  }

  // ------------------------------------------------------------------------------- the static checker

  /** What an expression may name: declared parameters that are no secret, outputs of the allowed nodes, and as
      the first argument of default() also of the soft ones, and the four run fields; each call with as many
      arguments as it takes. */
  predicate Scoped(e: Expr, sc: Scope, soft: bool)
    decreases e
  {
    match e
    case Lit(_, _) => true
    case Num(_) => true
    case Param(name) => name in sc.declared && !sc.declared[name]
    case Output(node, _) => node in sc.allowed || (soft && node in sc.soft)
    case Field(name) => name == "id" || name == "pipeline" || name == "trigger" || name == "repo"
    case Invoke(fn, args) =>
      (match fn case Default => |args| == 2 case ConcatFn => |args| >= 1 case SlugFn => |args| == 1) &&
      AllScoped(args, sc, fn == Default)
  }

  predicate AllScoped(args: seq<Expr>, sc: Scope, firstSoft: bool)
    decreases args
  {
    args != [] ==> Scoped(args[0], sc, firstSoft) && AllScoped(args[1..], sc, false)
  }

  lemma RefScoped(e: Expr, sc: Scope, soft: bool)
    requires Sayable(e) && IsRef(e)
    ensures CheckRef(Print(e), sc, soft) <==> Scoped(e, sc, soft)
  {
    RefSplits(e);
    hide Sayable, Print, Split;
  }

  lemma {:induction false} ArgScoped(e: Expr, sc: Scope, soft: bool)
    requires Sayable(e)
    ensures CheckArg(Print(e), sc, soft) <==> Scoped(e, sc, soft)
    decreases e, 1
  {
    PrintTight(e);
    TightStrips(Print(e));
    hide Tight, Strip, IsLiteral, IsCall, IsInt, CheckRef, Print, SplitArgs;
    match e
    case Lit(_, _) => LitForm(e);
    case Num(n) =>
      PrintNum(n);
      DecimalRead(n);
    case Invoke(fn, args) =>
      FnForm(fn, args);
      CallNoInt(e);
      CallScoped(e, sc, soft);
    case _ =>
      RefForm(e);
      RefScoped(e, sc, soft);
  }

  lemma CallNoInt(e: Expr)
    requires e.Invoke?
    ensures !IsInt(Print(e))
  {
    assert !('0' <= Print(e)[0] <= '9') && Print(e)[0] != '-';
  }

  lemma CheckForms(raw: string, args: seq<string>, sc: Scope, soft: bool)
    requires Strip(raw) == raw && IsCall(raw) && SplitArgs(CallBody(raw)) == Some(args) && KnownFunction(CallName(raw))
    ensures forall i: nat | i < |args| :: |args[i]| <= |CallBody(raw)|
    ensures CheckExpr(raw, sc, soft) <==>
              ArityOk(CallName(raw), |args|) && CheckArgs(args, |CallBody(raw)|, sc, CallName(raw) == "default")
  {
    SplitArgsBounded(CallBody(raw));
    hide CheckArgs, Strip, IsCall, ArityOk, KnownFunction;
  }

  /** The checker accepts a printed call exactly when everything it names is in scope. */
  lemma {:induction false} CallScoped(e: Expr, sc: Scope, soft: bool)
    requires Sayable(e) && e.Invoke?
    ensures CheckExpr(Print(e), sc, soft) <==> Scoped(e, sc, soft)
    decreases e, 0
  {
    var args, raw := e.args, Print(e);
    PrintTight(e);
    TightStrips(raw);
    FnForm(e.fn, args);
    InvokeIs(e);
    SplitsBack(args);
    CheckForms(raw, Printed(args), sc, soft);
    PrintedAre(args);
    FnNames();
    ArgsScoped(args, |CallBody(raw)|, sc, e.fn == Default);
    hide CheckExpr, CheckArgs, Print, SplitArgs, Strip, IsCall, CallName, CallBody, Printed, Sayable, KnownFunction;
  }

  lemma CheckArgsCons(args: seq<Expr>, bound: nat, sc: Scope, firstSoft: bool)
    requires args != [] && forall i: nat | i < |Printed(args)| :: |Printed(args)[i]| <= bound
    ensures forall i: nat | i < |Printed(args[1..])| :: |Printed(args[1..])[i]| <= bound
    ensures CheckArgs(Printed(args), bound, sc, firstSoft) <==>
              CheckArg(Print(args[0]), sc, firstSoft) && CheckArgs(Printed(args[1..]), bound, sc, false)
  {
    hide CheckArg, Print;
    var more := Printed(args[1..]);
    assert Printed(args) == [Print(args[0])] + more && Printed(args)[1..] == more;
    forall i: nat | i < |more| ensures |more[i]| <= bound {
      assert more[i] == Printed(args)[i + 1];
    }
  }

  lemma {:induction false} ArgsScoped(args: seq<Expr>, bound: nat, sc: Scope, firstSoft: bool)
    requires AllSayable(args) && forall i: nat | i < |Printed(args)| :: |Printed(args)[i]| <= bound
    ensures CheckArgs(Printed(args), bound, sc, firstSoft) <==> AllScoped(args, sc, firstSoft)
    decreases args, 2
  {
    hide CheckArg, Print, Sayable, Scoped;
    if args != [] {
      CheckArgsCons(args, bound, sc, firstSoft);
      ArgScoped(args[0], sc, firstSoft);
      ArgsScoped(args[1..], bound, sc, false);
    }
  }

  /** The scan of a field that is one expression accepts it if and only if everything it names is in scope. */
  lemma CheckMeans(e: Expr, sc: Scope)
    requires Sayable(e) && (e.Invoke? || IsRef(e))
    ensures CheckString(Hole(e), sc) <==> Scoped(e, sc, false)
  {
    HolePieces(e);
    if e.Invoke? {
      CallScoped(e, sc, false);
    } else {
      RefForm(e);
      RefScoped(e, sc, false);
      PrintTight(e);
      TightStrips(Print(e));
    }
    hide *;
    OneBody(Hole(e), Print(e), sc);
    if !e.Invoke? {
      PlainChecked(Print(e), sc);
    }
  }

  lemma OneBody(s: string, body: string, sc: Scope)
    requires Pieces(Protect(s)) == [Ref(body)] && HasOpener(Removed(s))
    ensures CheckString(s, sc) <==> CheckExpr(body, sc, false)
  {
    hide CheckExpr, Pieces, Protect, Removed;
    assert [Ref(body)][1..] == [];
    assert Bodies([Ref(body)]) == [body] && References.Plain([Ref(body)]) == "";
    assert Bodies(Pieces(Protect(s)))[0] == body;
  }

  lemma PlainChecked(raw: string, sc: Scope)
    requires Strip(raw) == raw && !IsCall(raw)
    ensures CheckExpr(raw, sc, false) <==> CheckRef(raw, sc, false)
  {
    hide CheckRef, Strip, IsCall;
  }
}
