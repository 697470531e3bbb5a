/** What a schedule means. */
module Schedules {
  // A schedule as the five lists that its text spells: which instants they match, and what the search over the
  // text finds.

  import opened Calendar
  import opened Cron
  import opened Documents
  import opened Strings

  datatype Extent = Any | One(a: nat) | Range(a: nat, b: nat)

  /** Part of a field: an extent, and every how many of its values count. */
  datatype Item = Item(extent: Extent, step: Option<nat>)

  /** The five fields. */
  datatype Table = Table(minutes: seq<Item>, hours: seq<Item>, doms: seq<Item>, months: seq<Item>, dows: seq<Item>)

  function Body(e: Extent): string {
    match e
    case Any => "*"
    case One(a) => Digits(a)
    case Range(a, b) => Digits(a) + ['-'] + Digits(b)
  }

  function PrintItem(i: Item): string {
    Body(i.extent) + if i.step.Some? then ['/'] + Digits(i.step.value) else ""
  }

  function PrintField(f: seq<Item>): string
    requires f != []
  {
    if |f| == 1 then PrintItem(f[0]) else PrintItem(f[0]) + [','] + PrintField(f[1..])
  }

  predicate Whole(t: Table) { t.minutes != [] && t.hours != [] && t.doms != [] && t.months != [] && t.dows != [] }

  function PrintTable(t: Table): string
    requires Whole(t)
  {
    PrintField(t.minutes) + " " + (PrintField(t.hours) + " " + (PrintField(t.doms) + " " +
      (PrintField(t.months) + " " + PrintField(t.dows))))
  }

  // --------------------------------------------------------------------------------------- meaning

  /** Its first and its last value, in a field from lo to hi. */
  function First(e: Extent, lo: int): int { if e.Any? then lo else e.a }
  function Final(e: Extent, hi: int): int { match e case Any => hi case One(a) => a case Range(_, b) => b }

  predicate GoodItem(i: Item, lo: int, hi: int) {
    lo <= First(i.extent, lo) <= Final(i.extent, hi) <= hi && (i.step.Some? ==> i.step.value >= 1)
  }

  /** The item counts this value: it is in the extent, a whole number of steps from its first. */
  predicate Counts(i: Item, lo: int, hi: int, v: int) {
    && First(i.extent, lo) <= v <= Final(i.extent, hi)
    && (i.step.Some? && i.step.value >= 1 ==> (v - First(i.extent, lo)) % i.step.value == 0)
  }

  predicate GoodField(f: seq<Item>, lo: int, hi: int) { forall k | 0 <= k < |f| :: GoodItem(f[k], lo, hi) }

  predicate Has(f: seq<Item>, lo: int, hi: int, v: int) { exists k | 0 <= k < |f| :: Counts(f[k], lo, hi, v) }

  predicate GoodTable(t: Table) {
    && GoodField(t.minutes, 0, 59) && GoodField(t.hours, 0, 23) && GoodField(t.doms, 1, 31)
    && GoodField(t.months, 1, 12) && GoodField(t.dows, 0, 7)
  }

  /** The instant, in seconds from the epoch, is a whole minute whose minute, hour, day of the month, month and day
      of the week all are in their lists. Sunday is 0 and 7; 1 January 1970 was a Thursday. */
  predicate Matches(t: Table, s: int) {
    var day := s / 86400;
    && s % 60 == 0
    && Has(t.minutes, 0, 59, s % 3600 / 60)
    && Has(t.hours, 0, 23, s % 86400 / 3600)
    && Has(t.doms, 1, 31, DateOf(day).day)
    && Has(t.months, 1, 12, DateOf(day).month)
    && (Has(t.dows, 0, 7, (day + 4) % 7) || ((day + 4) % 7 == 0 && Has(t.dows, 0, 7, 7)))
  }

  // ------------------------------------------------------------------------------------- one number

  predicate AllDigit(s: string) { s != "" && forall i | 0 <= i < |s| :: Digit(s[i]) }

  lemma {:induction false} DigitsMean(n: nat)
    ensures AllDigit(Digits(n)) && GroupedValue(Digits(n)) == n
  {
    var d := '0' + (n % 10) as char;
    assert Digit(d) && DigitValue(d) == n % 10;
    if n < 10 {
      assert Digits(n)[..0] == "";
    } else {
      DigitsMean(n / 10);
      assert Digits(n)[..|Digits(n)| - 1] == Digits(n / 10);
    }
  }

  lemma DigitsRead(n: nat)
    ensures ReadInt(Digits(n)) == Some(n as int)
  {
    DigitsMean(n);
    hide GroupedValue, Digits;
    NumberInt(Digits(n));
  }

  /** Digits and underscores. */
  predicate Barred(s: string) { forall i | 0 <= i < |s| :: Digit(s[i]) || s[i] == '_' }

  lemma {:induction false} JoinValue(s: string, t: string)
    requires AllDigit(s) && AllDigit(t)
    ensures Barred(s + "_" + t) && Barred(s + t) && GroupedValue(s + "_" + t) == GroupedValue(s + t)
    decreases |t|
  {
    var u, v, last := s + "_" + t, s + t, t[|t| - 1];
    assert u[|u| - 1] == last == v[|v| - 1];
    if |t| == 1 {
      assert u[..|u| - 1] == s + "_" && v[..|v| - 1] == s;
      assert (s + "_")[..|s|] == s;
    } else {
      var front := t[..|t| - 1];
      assert u[..|u| - 1] == s + "_" + front && v[..|v| - 1] == s + front;
      JoinValue(s, front);
    }
  }

  lemma SignForms(text: string)
    requires Strip(text) == text && text != ""
    ensures text[0] == '+' && Grouped(text[1..]) ==> Barred(text[1..]) && ReadInt(text) == Some(GroupedValue(text[1..]) as int)
    ensures text[0] == '-' && Grouped(text[1..]) ==> Barred(text[1..]) && ReadInt(text) == Some(-(GroupedValue(text[1..]) as int))
    ensures Digit(text[0]) && Grouped(text) ==> Barred(text) && ReadInt(text) == Some(GroupedValue(text) as int)
  {
    hide Strip, GroupedValue;
  }

  lemma DigitsGrouped(s: string)
    requires AllDigit(s)
    ensures Grouped(s) && Barred(s) && Digit(s[0]) && !Space(s[0]) && !Space(s[|s| - 1])
  {
  }

  lemma JoinGrouped(s: string, t: string)
    requires AllDigit(s) && AllDigit(t)
    ensures var u := s + "_" + t; Grouped(u) && Digit(u[0]) && !Space(u[0]) && !Space(u[|u| - 1])
    ensures AllDigit(s + t)
  {
    var u := s + "_" + t;
    assert u[0] == s[0] && u[|u| - 1] == t[|t| - 1];
    forall i | 0 <= i < |u| - 1 ensures Digit(u[i]) || Digit(u[i + 1]) {
      assert i < |s| ==> u[i] == s[i];
      assert i > |s| ==> u[i] == t[i - |s| - 1];
      assert i == |s| ==> u[i + 1] == t[0];
    }
  }

  lemma SignStrips(sign: char, d: string)
    requires (sign == '+' || sign == '-') && d != "" && !Space(d[|d| - 1])
    ensures var s := [sign] + d; s != "" && s[0] == sign && s[1..] == d && Strip(s) == s
  {
    StripsToItself([sign] + d);
  }

  /** Numbers as int() reads them: a sign may stand in front, and an underscore between two digits. */
  lemma NumberMeans(n: nat, s: string, t: string)
    requires AllDigit(s) && AllDigit(t)
    ensures ReadInt(['+'] + Digits(n)) == Some(n as int) && ReadInt(['-'] + Digits(n)) == Some(-(n as int))
    ensures ReadInt(s + "_" + t) == ReadInt(s + t)
  {
    hide *;
    var d := Digits(n);
    DigitsMean(n);
    DigitsGrouped(d);
    SignStrips('+', d);
    SignStrips('-', d);
    SignForms(['+'] + d);
    SignForms(['-'] + d);
    JoinValue(s, t);
    JoinGrouped(s, t);
    DigitsGrouped(s + t);
    StripsToItself(s + "_" + t);
    StripsToItself(s + t);
    SignForms(s + "_" + t);
    SignForms(s + t);
  }

  /** Neither a comma nor a blank nor another separator. */
  lemma DigitsPlain(n: nat)
    ensures var s := Digits(n);
            s != "" && Digit(s[0]) && forall c | c in s :: c != ',' && c != '-' && c != '/' && c != '*' && !Space(c)
  {
    DigitsMean(n);
    hide Digits, GroupedValue;
    forall c | c in Digits(n) ensures c != ',' && c != '-' && c != '/' && c != '*' && !Space(c) {
      var i :| 0 <= i < |Digits(n)| && Digits(n)[i] == c;
      assert Digit(Digits(n)[i]);
    }
  }

  lemma {:induction false} FindAt(a: string, c: char, b: string)
    requires c !in a
    ensures Find(a + [c] + b, c) == |a|
    decreases |a|
  {
    var s := a + [c] + b;
    if a != "" {
      assert a[0] in a && s[0] == a[0] && s[1..] == a[1..] + [c] + b;
      FindAt(a[1..], c, b);
    }
  }

  // --------------------------------------------------------------------------------------- one item

  /** The text of an extent. */
  lemma BodyPlain(e: Extent)
    ensures var s := Body(e); s != "" && forall c | c in s :: c != ',' && c != '/' && !Space(c)
  {
    match e
    case Any =>
    case One(a) => DigitsPlain(a);
    case Range(a, b) =>
      DigitsPlain(a);
      DigitsPlain(b);
  }

  lemma BodyMeans(e: Extent, lo: int, hi: int)
    ensures ReadBody(Body(e), lo, hi) == Some((First(e, lo), Final(e, hi)))
  {
    hide ReadInt, Digits;
    match e
    case Any =>
    case One(a) =>
      DigitsPlain(a);
      DigitsRead(a);
      NotFound(Digits(a), '-');
    case Range(a, b) =>
      DigitsPlain(a);
      DigitsRead(a);
      DigitsRead(b);
      FindAt(Digits(a), '-', Digits(b));
      var s := Digits(a) + ['-'] + Digits(b);
      assert s[..|Digits(a)|] == Digits(a) && s[|Digits(a)| + 1..] == Digits(b);
      assert s[0] != '*';
  }

  lemma ItemPlain(i: Item)
    ensures var s := PrintItem(i); s != "" && forall c | c in s :: c != ',' && !Space(c)
  {
    BodyPlain(i.extent);
    if i.step.Some? {
      DigitsPlain(i.step.value);
    }
  }

  /** The reader takes an item as its meaning says. */
  lemma ItemMeans(i: Item, lo: int, hi: int)
    ensures ReadPart(PrintItem(i), lo, hi) ==
              if GoodItem(i, lo, hi) then Some(Part(First(i.extent, lo), Final(i.extent, hi), if i.step.Some? then i.step.value else 1))
              else None
  {
    hide *;
    var body, s := Body(i.extent), PrintItem(i);
    ItemStrips(i);
    BodyPlain(i.extent);
    BodyMeans(i.extent, lo, hi);
    ItemForms(i, lo, hi);
    if i.step.Some? {
      var n := Digits(i.step.value);
      DigitsRead(i.step.value);
      FindAt(body, '/', n);
      assert s[..|body|] == body && s[|body| + 1..] == n;
      PartForms(s, lo, hi);
    } else {
      NotFound(s, '/');
      assert s[..|s|] == s;
      PartForms(s, lo, hi);
    }
  }

  lemma ItemStrips(i: Item)
    ensures Strip(PrintItem(i)) == PrintItem(i)
  {
    ItemPlain(i);
    hide PrintItem;
    assert PrintItem(i)[0] in PrintItem(i) && PrintItem(i)[|PrintItem(i)| - 1] in PrintItem(i);
    StripsToItself(PrintItem(i));
  }

  lemma ItemForms(i: Item, lo: int, hi: int)
    ensures i.step.Some? ==> PrintItem(i) == Body(i.extent) + ['/'] + Digits(i.step.value)
    ensures i.step.None? ==> PrintItem(i) == Body(i.extent)
    ensures GoodItem(i, lo, hi) <==>
              lo <= First(i.extent, lo) && Final(i.extent, hi) <= hi && First(i.extent, lo) <= Final(i.extent, hi) &&
              (i.step.Some? ==> i.step.value >= 1)
  {
    hide Body, Digits;
    assert Body(i.extent) + "" == Body(i.extent);
  }

  lemma PartForms(s: string, lo: int, hi: int)
    requires Strip(s) == s
    ensures var k := Find(s, '/');
            var step := if k < |s| then ReadInt(s[k + 1..]) else Some(1);
            var body := ReadBody(s[..k], lo, hi);
            ReadPart(s, lo, hi) ==
              if step.None? || step.value < 1 || body.None? || body.value.0 < lo || body.value.1 > hi || body.value.0 > body.value.1
              then None else Some(Part(body.value.0, body.value.1, step.value))
  {
    hide Strip, Find, ReadInt, ReadBody;
  }

  // ------------------------------------------------------------------------------------- one field

  function Parts(f: seq<Item>): seq<string> {
    if f == [] then [] else [PrintItem(f[0])] + Parts(f[1..])
  }

  lemma {:induction false} FieldSplits(f: seq<Item>)
    requires f != []
    ensures Split(PrintField(f), ',') == Parts(f)
    ensures PrintField(f) != "" && forall c | c in PrintField(f) :: !Space(c)
    decreases |f|
  {
    ItemPlain(f[0]);
    hide PrintItem;
    if |f| == 1 {
      SplitNone(PrintItem(f[0]), ',');
      assert f[1..] == [];
    } else {
      FieldSplits(f[1..]);
      SplitCons(PrintItem(f[0]), PrintField(f[1..]), ',');
    }
  }

  lemma {:induction false} PartsMean(f: seq<Item>, lo: int, hi: int)
    ensures FieldOf(Parts(f), lo, hi).Some? <==> GoodField(f, lo, hi)
    ensures GoodField(f, lo, hi) ==> forall v :: v in FieldOf(Parts(f), lo, hi).value <==> Has(f, lo, hi, v)
    decreases |f|
  {
    hide ReadPart, PrintItem, GoodItem, Counts, Values;
    if f != [] {
      PartsMean(f[1..], lo, hi);
      ItemMeans(f[0], lo, hi);
      assert Parts(f)[0] == PrintItem(f[0]) && Parts(f)[1..] == Parts(f[1..]);
      GoodCons(f, lo, hi);
      if GoodField(f, lo, hi) {
        forall v ensures v in FieldOf(Parts(f), lo, hi).value <==> Has(f, lo, hi, v) {
          HasCons(f, lo, hi, v);
          ItemCounts(f[0], lo, hi, v);
        }
      }
    }
  }

  lemma GoodCons(f: seq<Item>, lo: int, hi: int)
    requires f != []
    ensures GoodField(f, lo, hi) <==> GoodItem(f[0], lo, hi) && GoodField(f[1..], lo, hi)
  {
    hide GoodItem;
    assert forall k | 0 <= k < |f[1..]| :: f[1..][k] == f[k + 1];
    assert forall k | 0 < k < |f| :: f[k] == f[1..][k - 1];
  }

  lemma HasCons(f: seq<Item>, lo: int, hi: int, v: int)
    requires f != []
    ensures Has(f, lo, hi, v) <==> Counts(f[0], lo, hi, v) || Has(f[1..], lo, hi, v)
  {
    hide Counts;
    if k :| 0 <= k < |f| && Counts(f[k], lo, hi, v) {
      assert k > 0 ==> Counts(f[1..][k - 1], lo, hi, v);
    }
    if k :| 0 <= k < |f[1..]| && Counts(f[1..][k], lo, hi, v) {
      assert Counts(f[k + 1], lo, hi, v);
    }
  }

  lemma ItemCounts(i: Item, lo: int, hi: int, v: int)
    requires GoodItem(i, lo, hi)
    ensures ReadPart(PrintItem(i), lo, hi).Some?
    ensures v in Values(ReadPart(PrintItem(i), lo, hi).value) <==> Counts(i, lo, hi, v)
  {
    ItemMeans(i, lo, hi);
    hide ReadPart, PrintItem;
  }

  /** A field is read if and only if each of its items is in range, and holds exactly the values they count. */
  lemma FieldMeans(f: seq<Item>, lo: int, hi: int)
    requires f != []
    ensures CronField(PrintField(f), lo, hi).Some? <==> GoodField(f, lo, hi)
    ensures GoodField(f, lo, hi) ==> forall v :: v in CronField(PrintField(f), lo, hi).value <==> Has(f, lo, hi, v)
  {
    FieldSplits(f);
    PartsMean(f, lo, hi);
    hide FieldOf, Split, PrintField, GoodField, Has;
  }

  // ------------------------------------------------------------------------------------- five fields

  lemma MoreFields(f: seq<Item>, rest: string)
    requires f != []
    ensures Words(PrintField(f) + " " + rest) == [PrintField(f)] + Words(rest)
  {
    FieldSplits(f);
    hide PrintField, Split, Words;
    WordsCons(PrintField(f), rest);
  }

  lemma TableWords(t: Table)
    requires Whole(t)
    ensures Words(PrintTable(t)) ==
              [PrintField(t.minutes), PrintField(t.hours), PrintField(t.doms), PrintField(t.months), PrintField(t.dows)]
  {
    hide Words, PrintField;
    FieldSplits(t.dows);
    OneWord(PrintField(t.dows));
    var d := PrintField(t.dows);
    MoreFields(t.months, d);
    var c := PrintField(t.months) + " " + d;
    MoreFields(t.doms, c);
    var b := PrintField(t.doms) + " " + c;
    MoreFields(t.hours, b);
    MoreFields(t.minutes, PrintField(t.hours) + " " + b);
  }

  lemma TableReads(t: Table)
    requires Whole(t)
    ensures ParseSched(PrintTable(t)).Some? <==> GoodTable(t)
    ensures GoodTable(t) ==>
              var s := ParseSched(PrintTable(t)).value;
              && (forall v :: v in s.minutes <==> Has(t.minutes, 0, 59, v))
              && (forall v :: v in s.hours <==> Has(t.hours, 0, 23, v))
              && (forall v :: v in s.doms <==> Has(t.doms, 1, 31, v))
              && (forall v :: v in s.months <==> Has(t.months, 1, 12, v))
              && forall v :: v in s.dows <==> Has(t.dows, 0, 7, v) || (v == 0 && Has(t.dows, 0, 7, 7))
  {
    TableWords(t);
    FieldMeans(t.minutes, 0, 59);
    FieldMeans(t.hours, 0, 23);
    FieldMeans(t.doms, 1, 31);
    FieldMeans(t.months, 1, 12);
    FieldMeans(t.dows, 0, 7);
    hide Words, PrintTable, PrintField, CronField, GoodField, Has;
  }

  /** Seconds and minutes count the same days and hours. */
  lemma Clock(s: int)
    requires s % 60 == 0
    ensures var k := s / 60; k / DAY == s / 86400 && k % DAY / 60 == s % 86400 / 3600 && k % 60 == s % 3600 / 60
  {
    var day, r := s / 86400, s % 86400;
    var h, q := r / 3600, r % 3600;
    var m, z := q / 60, q % 60;
    assert s == 86400 * day + 3600 * h + 60 * m + z;
    Quotient(s, 60, 1440 * day + 60 * h + m, z);
    assert z == 0 by {
      var n := s / 60;
      assert s == 60 * n + s % 60 == 60 * (1440 * day + 60 * h + m) + z;
    }
    MinuteParts(day, h, m);
    Quotient(s, 3600, 24 * day + h, q);
    assert s == 3600 * (s / 3600) + s % 3600;
  }

  lemma MatchesFires(t: Table, s: Sched, u: int)
    requires (forall v :: v in s.minutes <==> Has(t.minutes, 0, 59, v)) && (forall v :: v in s.hours <==> Has(t.hours, 0, 23, v))
    requires (forall v :: v in s.doms <==> Has(t.doms, 1, 31, v)) && (forall v :: v in s.months <==> Has(t.months, 1, 12, v))
    requires forall v :: v in s.dows <==> Has(t.dows, 0, 7, v) || (v == 0 && Has(t.dows, 0, 7, 7))
    ensures FiresAtSecond(s, u) <==> Matches(t, u)
  {
    hide Has, DateOf;
    if u % 60 == 0 {
      Clock(u);
      WeekdayOf(u / 86400);
      hide Weekday;
    }
  }

  /** The end of the days that are searched: 367 days from the one that the first whole minute after now is in. */
  function Horizon(now: int): int { ((now + 60) / 86400 + 367) * 86400 }

  lemma HorizonIs(now: int)
    ensures WindowEnd(now) * 60 == Horizon(now)
  {
    var n := now + 60;
    var m, z := n / 60, n % 60;
    var day, r := m / DAY, m % DAY;
    assert n == 60 * m + z && m == DAY * day + r;
    Quotient(n, 86400, day, 60 * r + z);
  }

  /** The search over a schedule's text finds the first instant after now that the schedule matches, in the days
      that are searched. It finds none where there is none, and none where a field is out of range. */
  lemma NextFireMeans(t: Table, now: int)
    requires Whole(t)
    ensures var r := CronNextFire(PrintTable(t), now);
            if !GoodTable(t) then r == None
            else if r.Some? then
              now < r.value < Horizon(now) && Matches(t, r.value) && forall u | now < u < r.value :: !Matches(t, u)
            else forall u | now < u < Horizon(now) :: !Matches(t, u)
  {
    TableReads(t);
    HorizonIs(now);
    hide ParseSched, PrintTable, Matches, FiresAtSecond, NextFire, GoodTable, Has, Horizon, WindowEnd;
    if GoodTable(t) {
      var s := ParseSched(PrintTable(t)).value;
      NextFireLeast(s, now);
      forall u ensures FiresAtSecond(s, u) <==> Matches(t, u) {
        MatchesFires(t, s, u);
      }
    }
  }

  /** Due exactly when the schedule has matched since its last fire, within the days that are searched. */
  lemma DueMeans(t: Table, last: int, now: int)
    requires Whole(t)
    ensures CronDue(PrintTable(t), last, now) <==>
              GoodTable(t) && exists u :: last < u <= now && u < Horizon(last) && Matches(t, u)
  {
    NextFireMeans(t, last);
    hide PrintTable, Matches, GoodTable, Horizon, CronNextFire;
  }
}
