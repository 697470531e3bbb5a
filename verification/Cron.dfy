/** Five-field schedules and their next fire. */
module Cron {
  // Reading them, and the search for the next instant that matches.

  import opened Calendar
  import opened Counting
  import opened Documents
  import opened Strings

  // ---------------------------------------------------------------------------------- one field

  /** What int() takes: digits in groups joined by single underscores. */
  predicate Grouped(s: string) {
    && s != "" && Digit(s[0]) && Digit(s[|s| - 1])
    && (forall i | 0 <= i < |s| :: Digit(s[i]) || s[i] == '_')
    && forall i | 0 <= i < |s| - 1 :: Digit(s[i]) || Digit(s[i + 1])
  }

  function GroupedValue(s: string): nat
    requires forall i | 0 <= i < |s| :: Digit(s[i]) || s[i] == '_'
  {
    if s == "" then 0
    else
      var before := GroupedValue(s[..|s| - 1]);
      if s[|s| - 1] == '_' then before else before * 10 + DigitValue(s[|s| - 1])
  }

  function ReadInt(text: string): Option<int> {
    var t := Strip(text);
    var signed := t != "" && (t[0] == '+' || t[0] == '-');
    var body := if signed then t[1..] else t;
    if !Grouped(body) then None
    else Some(if signed && t[0] == '-' then -(GroupedValue(body) as int) else GroupedValue(body))
  }

  datatype Part = Part(lo: int, hi: int, step: int)

  predicate Covers(p: Part, v: int)
    requires p.step >= 1
  {
    p.lo <= v <= p.hi && (v - p.lo) % p.step == 0
  }

  function ReadBody(body: string, lo: int, hi: int): Option<(int, int)> {
    var dash := Find(body, '-');
    if body == "*" then Some((lo, hi))
    else if dash < |body| then
      var a, b := ReadInt(body[..dash]), ReadInt(body[dash + 1..]);
      if a.None? || b.None? then None else Some((a.value, b.value))
    else
      var a := ReadInt(body);
      if a.None? then None else Some((a.value, a.value))
  }

  function ReadPart(text: string, lo: int, hi: int): (p: Option<Part>)
    ensures p.Some? ==> lo <= p.value.lo <= p.value.hi <= hi && p.value.step >= 1
  {
    var part := Strip(text);
    var slash := Find(part, '/');
    var step := if slash < |part| then ReadInt(part[slash + 1..]) else Some(1);
    if step.None? || step.value < 1 then None
    else
      var range := ReadBody(part[..slash], lo, hi);
      if range.None? || range.value.0 < lo || range.value.1 > hi || range.value.0 > range.value.1 then None
      else Some(Part(range.value.0, range.value.1, step.value))
  }

  function Values(p: Part): set<int>
    requires p.step >= 1
  {
    set v | p.lo <= v <= p.hi && Covers(p, v)
  }

  function FieldOf(parts: seq<string>, lo: int, hi: int): Option<set<int>> {
    if parts == [] then Some({})
    else
      var p, rest := ReadPart(parts[0], lo, hi), FieldOf(parts[1..], lo, hi);
      if p.None? || rest.None? then None else Some(Values(p.value) + rest.value)
  }

  function CronField(spec: string, lo: int, hi: int): Option<set<int>> {
    FieldOf(Split(spec, ','), lo, hi)
  }

  function Joined(out: set<int>, rest: Option<set<int>>): Option<set<int>> {
    if rest.None? then None else Some(out + rest.value)
  }

  lemma JoinedStep(parts: seq<string>, i: nat, lo: int, hi: int, out: set<int>)
    requires i < |parts|
    ensures var p := ReadPart(parts[i], lo, hi);
            Joined(out, FieldOf(parts[i..], lo, hi))
              == if p.None? then None else Joined(out + Values(p.value), FieldOf(parts[i + 1..], lo, hi))
  {
    hide ReadPart, Values;
    assert parts[i..][0] == parts[i] && parts[i..][1..] == parts[i + 1..];
    var p, rest := ReadPart(parts[i], lo, hi), FieldOf(parts[i + 1..], lo, hi);
    if p.Some? && rest.Some? {
      assert out + (Values(p.value) + rest.value) == out + Values(p.value) + rest.value;
    }
  }

  method CronFieldLoop(spec: string, lo: int, hi: int) returns (r: Option<set<int>>)
    ensures r == CronField(spec, lo, hi)
  {
    hide ReadPart, Values, FieldOf;
    var parts := Split(spec, ',');
    var out: set<int> := {};
    assert parts[0..] == parts;
    JoinedNone(FieldOf(parts, lo, hi));
    for i := 0 to |parts|
      invariant Joined(out, FieldOf(parts[i..], lo, hi)) == FieldOf(parts, lo, hi)
    {
      JoinedStep(parts, i, lo, hi, out);
      var p := ReadPart(parts[i], lo, hi);
      if p.None? {
        return None;
      }
      out := out + Values(p.value);
    }
    NoParts(lo, hi);
    assert parts[|parts|..] == [] && out + {} == out;
    r := Some(out);
  }

  lemma JoinedNone(rest: Option<set<int>>)
    ensures Joined({}, rest) == rest
  {
    if rest.Some? {
      assert {} + rest.value == rest.value;
    }
  }

  lemma NoParts(lo: int, hi: int)
    ensures FieldOf([], lo, hi) == Some({})
  {
  }

  lemma InValues(p: Part)
    requires p.step >= 1 && p.lo <= p.hi
    ensures forall v :: v in Values(p) <==> Covers(p, v)
    ensures p.lo in Values(p) && forall v | Covers(p, v) :: p.lo <= v <= p.hi
  {
    assert Covers(p, p.lo);
  }

  /** Some part covers this value. */
  ghost predicate Covered(parts: seq<string>, lo: int, hi: int, v: int) {
    exists i | 0 <= i < |parts| && ReadPart(parts[i], lo, hi).Some? :: Covers(ReadPart(parts[i], lo, hi).value, v)
  }

  lemma CoveredCons(parts: seq<string>, lo: int, hi: int, v: int)
    requires parts != []
    ensures Covered(parts, lo, hi, v) <==>
              (ReadPart(parts[0], lo, hi).Some? && Covers(ReadPart(parts[0], lo, hi).value, v)) || Covered(parts[1..], lo, hi, v)
  {
    hide ReadPart, Covers;
    var rest := parts[1..];
    assert forall i | 0 <= i < |rest| :: rest[i] == parts[i + 1];
    if i :| 0 <= i < |parts| && ReadPart(parts[i], lo, hi).Some? && Covers(ReadPart(parts[i], lo, hi).value, v) {
      if i > 0 {
        assert Covers(ReadPart(rest[i - 1], lo, hi).value, v);
      }
    }
  }

  /** A field is read if and only if each of its parts is; it then holds exactly the values that some
      part covers, all of them in range, and at least one. */
  lemma {:induction false} FieldExact(parts: seq<string>, lo: int, hi: int)
    ensures FieldOf(parts, lo, hi).Some? <==> forall i | 0 <= i < |parts| :: ReadPart(parts[i], lo, hi).Some?
    ensures FieldOf(parts, lo, hi).Some? ==>
              forall v :: v in FieldOf(parts, lo, hi).value <==> Covered(parts, lo, hi, v)
    ensures FieldOf(parts, lo, hi).Some? ==> forall v | v in FieldOf(parts, lo, hi).value :: lo <= v <= hi
    ensures FieldOf(parts, lo, hi).Some? && parts != [] ==> FieldOf(parts, lo, hi).value != {}
    decreases |parts|
  {
    hide ReadPart, Values, Covers, Covered;
    if parts == [] {
      NotCovered(lo, hi);
    } else {
      var rest := parts[1..];
      FieldExact(rest, lo, hi);
      assert forall i | 0 <= i < |rest| :: rest[i] == parts[i + 1];
      assert forall i | 0 < i < |parts| :: parts[i] == rest[i - 1];
      if FieldOf(parts, lo, hi).Some? {
        InValues(ReadPart(parts[0], lo, hi).value);
        forall v ensures v in FieldOf(parts, lo, hi).value <==> Covered(parts, lo, hi, v) {
          CoveredCons(parts, lo, hi, v);
        }
      }
    }
  }

  lemma NotCovered(lo: int, hi: int)
    ensures forall v :: !Covered([], lo, hi, v)
  {
  }

  // ----------------------------------------------------------------------------------- schedules

  datatype Sched = Sched(minutes: set<int>, hours: set<int>, doms: set<int>, months: set<int>, dows: set<int>)

  function ParseSched(expr: string): Option<Sched> {
    var f := Words(expr);
    if |f| != 5 then None
    else
      var minutes, hours, doms := CronField(f[0], 0, 59), CronField(f[1], 0, 23), CronField(f[2], 1, 31);
      var months, dows := CronField(f[3], 1, 12), CronField(f[4], 0, 7);
      if minutes.None? || hours.None? || doms.None? || months.None? || dows.None? then None
      else
        Some(Sched(minutes.value, hours.value, doms.value, months.value,
                   if 7 in dows.value then dows.value + {0} else dows.value))
  }

  predicate DayMatches(s: Sched, d: Date)
    requires ValidDate(d)
  {
    d.month in s.months && d.day in s.doms && Weekday(d) in s.dows
  }

  const DAY: int := 1440
  const WINDOW: int := 367

  /** Whether the schedule fires in this minute, counted from the epoch. Day of month and day of week
      must both match. */
  predicate Fires(s: Sched, k: int) {
    DayMatches(s, DateOf(k / DAY)) && k % DAY / 60 in s.hours && k % 60 in s.minutes
  }

  /** The plain search: minute after minute. */
  function FirstFire(s: Sched, k: int, end: int): Option<int>
    decreases end - k
  {
    if k >= end then None else if Fires(s, k) then Some(k) else FirstFire(s, k + 1, end)
  }

  /** The first whole minute after an instant, and the end of the days that are searched. */
  function Start(now: int): int { (now + 60) / 60 }

  function WindowEnd(now: int): int { (Start(now) / DAY + WINDOW) * DAY }

  function NextFire(s: Sched, now: int): Option<int> {
    var k := FirstFire(s, Start(now), WindowEnd(now));
    if k.None? then None else Some(k.value * 60)
  }

  function CronNextFire(expr: string, now: int): Option<int> {
    var s := ParseSched(expr);
    if s.None? then None else NextFire(s.value, now)
  }

  /** The members of a set within bounds, in order. */
  function Sorted(s: set<int>, lo: int, hi: int): (r: seq<int>)
    ensures forall v :: v in r <==> v in s && lo <= v < hi
    ensures forall i, j | 0 <= i < j < |r| :: r[i] < r[j]
    decreases hi - lo
  {
    if lo >= hi then []
    else
      var rest := Sorted(s, lo + 1, hi);
      assert forall i | 0 <= i < |rest| :: rest[i] in rest;
      if lo in s then [lo] + rest else rest
  }

  function Timestamp(d: Date, h: int, m: int): int
    requires ValidDate(d)
  {
    (Ordinal(d) - EPOCH_ORDINAL) * 86400 + h * 3600 + m * 60
  }

  /** A minute by its day, hour and minute of the hour. */
  lemma MinuteParts(day: int, h: int, m: int)
    requires 0 <= h < 24 && 0 <= m < 60
    ensures var k := day * DAY + h * 60 + m; k / DAY == day && k % DAY / 60 == h && k % 60 == m
  {
    var k := day * DAY + h * 60 + m;
    Quotient(k, DAY, day, h * 60 + m);
    Quotient(h * 60 + m, 60, h, m);
    Quotient(k, 60, day * 24 + h, m);
  }

  lemma FiresAt(s: Sched, day: int, h: int, m: int)
    requires 0 <= h < 24 && 0 <= m < 60
    ensures Fires(s, day * DAY + h * 60 + m) <==> DayMatches(s, DateOf(day)) && h in s.hours && m in s.minutes
  {
    hide DayMatches, DateOf;
    MinuteParts(day, h, m);
  }

  /** Nothing fires from `a` up to `b`. */
  ghost predicate Quiet(s: Sched, a: int, b: int) { forall k | a <= k < b :: !Fires(s, k) }

  lemma {:induction false} FirstFireIs(s: Sched, a: int, end: int)
    ensures FirstFire(s, a, end).None? <==> Quiet(s, a, end)
    ensures FirstFire(s, a, end).Some? ==>
              var k := FirstFire(s, a, end).value; a <= k < end && Fires(s, k) && Quiet(s, a, k)
    decreases end - a
  {
    hide Fires;
    if a < end && !Fires(s, a) {
      FirstFireIs(s, a + 1, end);
    }
  }

  lemma FoundFirst(s: Sched, a: int, end: int, k: int)
    requires a <= k < end && Fires(s, k) && Quiet(s, a, k)
    ensures FirstFire(s, a, end) == Some(k)
  {
    hide Fires;
    FirstFireIs(s, a, end);
  }

  lemma QuietJoin(s: Sched, a: int, b: int, c: int)
    requires Quiet(s, a, b) && Quiet(s, b, c)
    ensures Quiet(s, a, c)
  {
    hide Fires;
  }

  /** A stretch of one day in which the hour or the minute is not scheduled, or the day is not. */
  lemma QuietStretch(s: Sched, day: int, from: int, to: int)
    requires 0 <= from && to <= DAY
    requires forall h, m | 0 <= h < 24 && 0 <= m < 60 && from <= h * 60 + m < to ::
               !(DayMatches(s, DateOf(day)) && h in s.hours && m in s.minutes)
    ensures Quiet(s, day * DAY + from, day * DAY + to)
  {
    forall k | day * DAY + from <= k < day * DAY + to ensures !Fires(s, k) {
      var r := k - day * DAY;
      Quotient(k, DAY, day, r);
      var h, m := r / 60, r % 60;
      FiresAt(s, day, h, m);
      hide Fires, DayMatches;
      assert k == day * DAY + h * 60 + m;
    }
  }

  /** The next member after position i, or the bound. */
  function Upcoming(r: seq<int>, i: nat, bound: int): int {
    if i < |r| then r[i] else bound
  }

  /** No member lies before the first, between neighbours, or after the last. */
  lemma SortedGap(s: set<int>, bound: int, i: nat)
    requires i <= |Sorted(s, 0, bound)|
    ensures var r := Sorted(s, 0, bound);
            forall v | (if i == 0 then 0 else r[i - 1] + 1) <= v < Upcoming(r, i, bound) :: v !in s
  {
    hide Sorted;
    var r := Sorted(s, 0, bound);
    forall v | (if i == 0 then 0 else r[i - 1] + 1) <= v < Upcoming(r, i, bound) ensures v !in s {
      UpcomingBound(r, i, bound);
      if i > 0 {
        assert r[i - 1] in r;
      }
      if v in r {
        var k :| 0 <= k < |r| && r[k] == v;
        Ordered(r, i, k);
      }
    }
  }

  lemma UpcomingBound(r: seq<int>, i: nat, bound: int)
    requires i <= |r| && forall v | v in r :: v < bound
    ensures Upcoming(r, i, bound) <= bound
  {
    if i < |r| {
      assert r[i] in r;
    }
  }

  lemma Ordered(r: seq<int>, i: nat, k: nat)
    requires k < |r| && i <= |r| && forall a, b | 0 <= a < b < |r| :: r[a] < r[b]
    ensures (i > 0 && r[k] <= r[i - 1]) || (i < |r| && r[k] >= r[i])
  {
    if k < i {
      assert k == i - 1 || r[k] < r[i - 1];
    } else {
      assert k == i || r[i] < r[k];
    }
  }

  lemma DateInjective(a: int, b: int)
    requires DateOf(a) == DateOf(b)
    ensures a == b
  {
    OrdinalOf(a);
    OrdinalOf(b);
  }

  lemma StampIs(day: int, h: int, m: int)
    ensures Timestamp(DateOf(day), h, m) == (day * DAY + h * 60 + m) * 60
  {
    OrdinalOf(day);
    hide DateOf, Ordinal;
  }

  /** Nothing is scheduled in the hours from `h` up to `to`. */
  lemma QuietHours(s: Sched, day: int, from: int, to: int)
    requires 0 <= from <= to <= 24 && forall h | from <= h < to :: h !in s.hours
    ensures Quiet(s, day * DAY + from * 60, day * DAY + to * 60)
  {
    hide DayMatches;
    QuietStretch(s, day, from * 60, to * 60);
  }

  lemma QuietMinutes(s: Sched, day: int, h: int, from: int, to: int)
    requires 0 <= h < 24 && 0 <= from <= to <= 60 && forall m | from <= m < to :: m !in s.minutes
    ensures Quiet(s, day * DAY + h * 60 + from, day * DAY + h * 60 + to)
  {
    hide DayMatches;
    QuietStretch(s, day, h * 60 + from, h * 60 + to);
  }

  lemma QuietDay(s: Sched, day: int)
    requires !DayMatches(s, DateOf(day))
    ensures Quiet(s, day * DAY, (day + 1) * DAY)
  {
    hide DayMatches;
    QuietStretch(s, day, 0, DAY);
  }

  /** Quiet from `a` on, as far as `a` lies before `b` and after `c`. */
  lemma QuietFrom(s: Sched, a: int, b: int, c: int, d: int)
    requires Quiet(s, a, b) && Quiet(s, c, d) && c <= Max(a, b)
    ensures Quiet(s, a, d)
  {
    hide Fires;
  }

  /** The hours and minutes of one matching day; on the first day only those not before `start`. */
  method HoursLoop(s: Sched, start: int, day: Date, firstDay: bool, ghost n: int) returns (r: Option<int>)
    requires day == DateOf(n) && start / DAY <= n && (firstDay <==> n == start / DAY) && DayMatches(s, day)
    ensures r.None? ==> Quiet(s, Max(start, n * DAY), (n + 1) * DAY)
    ensures r.Some? ==> exists k :: r.value == k * 60 && Max(start, n * DAY) <= k < (n + 1) * DAY && Fires(s, k)
                                    && Quiet(s, Max(start, n * DAY), k)
  {
    hide DayMatches, Fires, Sorted;
    var startHour, startMinute := start % DAY / 60, start % 60;
    ghost var base := Max(start, n * DAY);
    StartParts(start, n);
    var hours, minutes := Sorted(s.hours, 0, 24), Sorted(s.minutes, 0, 60);
    SortedGap(s.hours, 24, 0);
    FirstUpcoming(s.hours, 24);
    QuietHours(s, n, 0, Upcoming(hours, 0, 24));
    for i := 0 to |hours|
      invariant Quiet(s, base, n * DAY + Upcoming(hours, i, 24) * 60)
    {
      var h := hours[i];
      assert h in hours;
      SortedGap(s.hours, 24, i + 1);
      NextUpcoming(s.hours, 24, i);
      QuietHours(s, n, h + 1, Upcoming(hours, i + 1, 24));
      if firstDay && h < startHour {
        QuietFrom(s, base, n * DAY + h * 60, n * DAY + (h + 1) * 60, n * DAY + Upcoming(hours, i + 1, 24) * 60);
        continue;
      }
      r := MinutesLoop(s, start, day, firstDay, h, n);
      if r.Some? {
        return;
      }
      QuietFrom(s, base, n * DAY + (h + 1) * 60, n * DAY + (h + 1) * 60, n * DAY + Upcoming(hours, i + 1, 24) * 60);
    }
    r := None;
  }

  lemma StartParts(start: int, n: int)
    requires start / DAY <= n
    ensures start == start / DAY * DAY + start % DAY / 60 * 60 + start % 60
    ensures 0 <= start % DAY / 60 < 24 && 0 <= start % 60 < 60
    ensures n > start / DAY ==> start < n * DAY
  {
    var d, r := start / DAY, start % DAY;
    assert start == d * DAY + r;
    Quotient(start, 60, d * 24 + r / 60, r % 60);
  }

  lemma FirstUpcoming(s: set<int>, bound: nat)
    ensures 0 <= Upcoming(Sorted(s, 0, bound), 0, bound) <= bound
  {
    var r := Sorted(s, 0, bound);
    if r != [] {
      assert r[0] in r;
    }
  }

  lemma NextUpcoming(s: set<int>, bound: nat, i: nat)
    requires i < |Sorted(s, 0, bound)|
    ensures var r := Sorted(s, 0, bound);
            0 <= r[i] && r[i] in s && r[i] + 1 <= Upcoming(r, i + 1, bound) <= bound
  {
    var r := Sorted(s, 0, bound);
    assert r[i] in r;
    if i + 1 < |r| {
      assert r[i + 1] in r;
    }
  }

  /** The minutes of one scheduled hour. */
  method MinutesLoop(s: Sched, start: int, day: Date, firstDay: bool, h: int, ghost n: int) returns (r: Option<int>)
    requires day == DateOf(n) && start / DAY <= n && (firstDay <==> n == start / DAY) && DayMatches(s, day)
    requires 0 <= h < 24 && h in s.hours && (firstDay ==> start % DAY / 60 <= h)
    requires Quiet(s, Max(start, n * DAY), n * DAY + h * 60)
    ensures r.None? ==> Quiet(s, Max(start, n * DAY), n * DAY + (h + 1) * 60)
    ensures r.Some? ==> exists k :: r.value == k * 60 && Max(start, n * DAY) <= k < (n + 1) * DAY && Fires(s, k)
                                    && Quiet(s, Max(start, n * DAY), k)
  {
    hide DayMatches, Fires, Sorted, DateOf, Timestamp, ValidDate;
    ghost var base, hour := Max(start, n * DAY), n * DAY + h * 60;
    StartParts(start, n);
    var minutes := Sorted(s.minutes, 0, 60);
    SortedGap(s.minutes, 60, 0);
    FirstUpcoming(s.minutes, 60);
    QuietMinutes(s, n, h, 0, Upcoming(minutes, 0, 60));
    QuietFrom(s, base, hour, hour, hour + Upcoming(minutes, 0, 60));
    for j := 0 to |minutes|
      invariant Quiet(s, base, hour + Upcoming(minutes, j, 60))
    {
      var m := minutes[j];
      SortedGap(s.minutes, 60, j + 1);
      NextUpcoming(s.minutes, 60, j);
      QuietMinutes(s, n, h, m + 1, Upcoming(minutes, j + 1, 60));
      if firstDay && h == start % DAY / 60 && m < start % 60 {
        QuietFrom(s, base, hour + m, hour + m + 1, hour + Upcoming(minutes, j + 1, 60));
        continue;
      }
      var cand := Timestamp(day, h, m);
      StampIs(n, h, m);
      FiresAt(s, n, h, m);
      if cand >= start * 60 {
        assert cand == (hour + m) * 60 && base <= hour + m && Fires(s, hour + m);
        return Some(cand);
      }
    }
    r := None;
  }

  /** The nested search of the code: days, then the hours and minutes of a matching day. It finds what
      the plain search finds. */
  method NextFireLoop(expr: string, now: int) returns (r: Option<int>)
    ensures r == CronNextFire(expr, now)
  {
    hide Fires, ParseSched, FirstFire, DayMatches, DateOf;
    var parsed := ParseSched(expr);
    if parsed.None? {
      return None;
    }
    var s, start := parsed.value, Start(now);
    var startDay := DateOf(start / DAY);
    var day := startDay;
    ghost var first, end := start / DAY, WindowEnd(now);
    StartParts(start, first);
    for n := 0 to WINDOW
      invariant day == DateOf(first + n)
      invariant Quiet(s, start, Max(start, (first + n) * DAY))
    {
      if day == startDay {
        DateInjective(first + n, first);
      }
      if DayMatches(s, day) {
        r := HoursLoop(s, start, day, day == startDay, first + n);
        if r.Some? {
          ghost var k :| r.value == k * 60 && Max(start, (first + n) * DAY) <= k < (first + n + 1) * DAY && Fires(s, k)
                         && Quiet(s, Max(start, (first + n) * DAY), k);
          QuietJoin(s, start, Max(start, (first + n) * DAY), k);
          FoundFirst(s, start, end, k);
          return;
        }
      } else {
        QuietDay(s, first + n);
      }
      QuietFrom(s, start, Max(start, (first + n) * DAY), Max(start, (first + n) * DAY), (first + n + 1) * DAY);
      DateOfNext(first + n);
      day := Next(day);
    }
    FirstFireIs(s, start, end);
    r := None;
  }

  // ---------------------------------------------------------------------------- what it promises

  /** An instant, in seconds, at which the schedule fires. */
  predicate FiresAtSecond(s: Sched, t: int) { t % 60 == 0 && Fires(s, t / 60) }

  lemma MinuteOf(now: int, t: int)
    requires t % 60 == 0
    ensures t > now <==> t / 60 >= Start(now)
    ensures t == t / 60 * 60
  {
    var k := t / 60;
    var q, r := (now + 60) / 60, (now + 60) % 60;
    assert t == 60 * k + t % 60 && now + 60 == 60 * q + r;
  }

  lemma WholeMinute(k: int)
    ensures k * 60 % 60 == 0 && k * 60 / 60 == k
  {
    Quotient(k * 60, 60, k, 0);
  }

  /** The next fire is the least matching instant strictly after now within the searched days, and
      there is none if and only if no instant of those days matches. */
  lemma NextFireLeast(s: Sched, now: int)
    ensures NextFire(s, now).Some? ==>
              var t := NextFire(s, now).value;
              && now < t < WindowEnd(now) * 60 && FiresAtSecond(s, t)
              && forall u | now < u < t :: !FiresAtSecond(s, u)
    ensures NextFire(s, now).None? <==> forall u | now < u < WindowEnd(now) * 60 :: !FiresAtSecond(s, u)
  {
    hide Fires, FirstFire;
    var a, end := Start(now), WindowEnd(now);
    FirstFireIs(s, a, end);
    var k := FirstFire(s, a, end);
    var stop := if k.Some? then k.value else end;
    forall u | now < u < stop * 60 ensures !FiresAtSecond(s, u) {
      if u % 60 == 0 {
        MinuteOf(now, u);
        assert a <= u / 60 < stop;
      }
    }
    if k.Some? {
      WholeMinute(k.value);
      MinuteOf(now, k.value * 60);
    }
  }

  lemma WindowGrows(a: int, b: int)
    requires a <= b
    ensures Start(a) <= Start(b) && WindowEnd(a) <= WindowEnd(b)
  {
    Floors(a + 60, b + 60, 60);
    Floors(Start(a), Start(b), DAY);
  }

  lemma Floors(a: int, b: int, k: int)
    requires a <= b && k > 0
    ensures a / k <= b / k
  {
    var p, q := a / k, b / k;
    assert a == k * p + a % k && b == k * q + b % k;
    if p > q {
      Scale(k, q + 1, p);
    }
  }

  /** Later never fires earlier; and until the next fire comes, it stays the next fire. */
  lemma NextFireMonotone(s: Sched, a: int, b: int)
    requires a <= b && NextFire(s, a).Some?
    ensures NextFire(s, b).Some? ==> NextFire(s, a).value <= NextFire(s, b).value
    ensures b < NextFire(s, a).value ==> NextFire(s, b) == NextFire(s, a)
  {
    hide FiresAtSecond, NextFire, WindowEnd;
    NextFireLeast(s, a);
    NextFireLeast(s, b);
    WindowGrows(a, b);
  }

  /** The cron-due command, over a schedule that may not parse. */
  predicate CronDue(expr: string, last: int, now: int) {
    var t := CronNextFire(expr, last);
    t.Some? && t.value <= now
  }

  /** Due means exactly that the schedule parses and some instant after the last fire and not after now,
      within the searched days, matches it. */
  lemma CronDueExact(expr: string, last: int, now: int)
    ensures CronDue(expr, last, now) <==>
              ParseSched(expr).Some? &&
              exists t :: last < t <= now && t < WindowEnd(last) * 60 && FiresAtSecond(ParseSched(expr).value, t)
  {
    hide FiresAtSecond, NextFire, WindowEnd, ParseSched;
    if ParseSched(expr).Some? {
      NextFireLeast(ParseSched(expr).value, last);
    }
  }

  // ------------------------------------------------------------- a schedule the window misses

  lemma {:induction false} YearsPass(y: int, z: int)
    requires y <= z
    ensures BeforeYear(y) + 365 * (z - y) <= BeforeYear(z)
    decreases z - y
  {
    if y < z {
      YearsPass(y, z - 1);
      YearLength(z - 1);
    }
  }

  lemma {:induction false} MonthsPass(y: int, m: int)
    requires 1 <= m <= 12
    ensures 0 <= BeforeMonth(y, m)
  {
    if m > 1 {
      MonthsPass(y, m - 1);
    }
  }

  /** The year of a date bounds its ordinal from below, so it cannot be far ahead. */
  lemma YearSoon(d: Date, y: int)
    requires ValidDate(d) && Ordinal(d) <= BeforeYear(y) 
    ensures d.year < y
  {
    MonthsPass(d.year, d.month);
    if d.year >= y {
      YearsPass(y, d.year);
    }
  }

  /** The year of a date bounds its ordinal from above, so it is not long past. */
  lemma YearReached(d: Date, y: int)
    requires ValidDate(d) && Ordinal(d) > BeforeYear(y)
    ensures d.year >= y
  {
    DayInYear(d);
    if d.year < y {
      YearsPass(d.year + 1, y);
    }
  }

  lemma DayInYear(d: Date)
    requires ValidDate(d)
    ensures Ordinal(d) <= BeforeYear(d.year + 1)
  {
    YearLength(d.year);
    YearSum(d.year);
    MonthEnds(d.year, d.month);
  }

  lemma {:induction false} MonthEnds(y: int, m: int)
    requires 1 <= m <= 12
    ensures BeforeMonth(y, m) + DaysIn(y, m) <= BeforeMonth(y, 12) + 31
    decreases 12 - m
  {
    if m < 12 {
      MonthEnds(y, m + 1);
    }
  }

  /** A finding: a schedule for 29 February parses, yet asked at the epoch it has no next fire, because
      no day of the 367 that are searched is a leap day. */
  lemma LeapDayMissed(s: Sched)
    requires s.months == {2} && s.doms == {29}
    ensures NextFire(s, 0).None?
  {
    forall k | Start(0) <= k < WindowEnd(0) ensures !Fires(s, k) {
      assert 0 <= k / DAY < WINDOW;
      NoLeapDay(k / DAY);
      hide DateOf, Weekday;
    }
    hide Fires;
    FirstFireIs(s, Start(0), WindowEnd(0));
  }

  lemma NoLeapDay(n: int)
    requires 0 <= n < WINDOW
    ensures DateOf(n).month != 2 || DateOf(n).day != 29
  {
    var d := DateOf(n);
    OrdinalOf(n);
    hide DateOf, Ordinal;
    assert BeforeYear(1970) == 719162 && BeforeYear(1972) == 719892;
    YearReached(d, 1970);
    YearSoon(d, 1972);
  }

  // ------------------------------------------------------------------- the expression that shows it

  lemma {:induction false} WordEndIs(w: string, t: string)
    requires (forall c | c in w :: !Space(c)) && (t == "" || Space(t[0]))
    ensures WordEnd(w + t) == |w|
    decreases |w|
  {
    if w == "" {
      assert w + t == t;
    } else {
      assert w[0] in w && (w + t)[0] == w[0] && (w + t)[1..] == w[1..] + t;
      WordEndIs(w[1..], t);
    }
  }

  lemma WordsCons(w: string, t: string)
    requires w != "" && forall c | c in w :: !Space(c)
    ensures Words(w + " " + t) == [w] + Words(t)
  {
    var s := w + " " + t;
    assert s == w + (" " + t) && (" " + t)[0] == ' ' && (" " + t)[1..] == t;
    WordEndIs(w, " " + t);
    assert w[0] in w && s[0] == w[0];
    assert s[..|w|] == w && s[|w|..] == " " + t;
    assert Words(" " + t) == Words(t);
    hide WordEnd;
  }

  lemma OneWord(w: string)
    requires w != "" && forall c | c in w :: !Space(c)
    ensures Words(w) == [w]
  {
    WordEndIs(w, "");
    assert w + "" == w && w[0] in w && w[..|w|] == w && w[|w|..] == "";
  }

  lemma {:induction false} NotFound(s: string, c: char)
    requires c !in s
    ensures Find(s, c) == |s|
  {
    if s != "" {
      assert s[0] in s;
      NotFound(s[1..], c);
    }
  }

  lemma StripsToItself(s: string)
    requires s != "" && !Space(s[0]) && !Space(s[|s| - 1])
    ensures Strip(s) == s
  {
  }

  lemma OnePart(w: string, lo: int, hi: int)
    requires ',' !in w && ReadPart(w, lo, hi).Some?
    ensures CronField(w, lo, hi) == Some(Values(ReadPart(w, lo, hi).value))
  {
    SplitNone(w, ',');
    hide ReadPart, Values, Split;
    NoParts(lo, hi);
    assert [w][0] == w && [w][1..] == [];
    var vs := Values(ReadPart(w, lo, hi).value);
    assert vs + {} == vs;
  }

  lemma NumberInt(w: string)
    requires w != "" && forall i | 0 <= i < |w| :: Digit(w[i])
    ensures ReadInt(w) == Some(GroupedValue(w) as int)
  {
    StripsToItself(w);
    assert Grouped(w);
    hide Strip, GroupedValue;
  }

  lemma NumberPart(w: string, lo: int, hi: int)
    requires w != "" && (forall i | 0 <= i < |w| :: Digit(w[i])) && lo <= GroupedValue(w) <= hi
    ensures ReadPart(w, lo, hi) == Some(Part(GroupedValue(w), GroupedValue(w), 1))
  {
    StripsToItself(w);
    NotFound(w, '/');
    NotFound(w, '-');
    NumberInt(w);
    assert w[..|w|] == w && w != "*";
    hide Strip, GroupedValue, Find, ReadInt;
  }

  /** A field that is one plain number. */
  lemma NumberField(w: string, lo: int, hi: int)
    requires w != "" && (forall i | 0 <= i < |w| :: Digit(w[i])) && lo <= GroupedValue(w) <= hi
    ensures CronField(w, lo, hi) == Some({GroupedValue(w) as int})
  {
    NumberPart(w, lo, hi);
    OnePart(w, lo, hi);
    hide ReadPart, GroupedValue, CronField;
    var v := GroupedValue(w) as int;
    assert Values(Part(v, v, 1)) == {v};
  }

  lemma StarField(lo: int, hi: int)
    requires lo <= hi
    ensures CronField("*", lo, hi).Some?
  {
    StripsToItself("*");
    NotFound("*", '/');
    assert "*"[..1] == "*";
    assert ReadPart("*", lo, hi).Some? by { hide Strip, Find; }
    OnePart("*", lo, hi);
  }

  lemma NoSpace(w: string)
    requires forall i | 0 <= i < |w| :: Digit(w[i]) || w[i] == '*'
    ensures forall c | c in w :: !Space(c)
  {
  }

  lemma MoreWords(w: string, t: string, s: string)
    requires w != "" && (forall i | 0 <= i < |w| :: Digit(w[i])) && s == w + " " + t
    ensures Words(s) == [w] + Words(t)
  {
    NoSpace(w);
    WordsCons(w, t);
    hide Words;
  }

  lemma TwoWords()
    ensures Words("2 *") == ["2", "*"]
  {
    NoSpace("*");
    OneWord("*");
    MoreWords("2", "*", "2 *");
    hide Words, Space;
  }

  lemma ThreeWords()
    ensures Words("29 2 *") == ["29", "2", "*"]
  {
    hide Words;
    TwoWords();
    MoreWords("29", "2 *", "29 2 *");
  }

  lemma FourWords()
    ensures Words("0 29 2 *") == ["0", "29", "2", "*"]
  {
    hide Words;
    ThreeWords();
    MoreWords("0", "29 2 *", "0 29 2 *");
  }

  lemma FiveWords()
    ensures Words("0 0 29 2 *") == ["0", "0", "29", "2", "*"]
  {
    hide Words;
    FourWords();
    MoreWords("0", "0 29 2 *", "0 0 29 2 *");
  }

  lemma NumbersRead()
    ensures GroupedValue("0") == 0 && GroupedValue("2") == 2 && GroupedValue("29") == 29
  {
    assert "0"[..0] == "" && "2"[..0] == "" && "29"[..1] == "2";
  }

  lemma LeapDayFields()
    ensures CronField("0", 0, 59).Some? && CronField("0", 0, 23).Some? && CronField("*", 0, 7).Some?
    ensures CronField("29", 1, 31) == Some({29}) && CronField("2", 1, 12) == Some({2})
  {
    hide CronField, GroupedValue;
    NumbersRead();
    NumberField("0", 0, 59);
    NumberField("0", 0, 23);
    NumberField("29", 1, 31);
    NumberField("2", 1, 12);
    StarField(0, 7);
  }

  lemma LeapDayParses()
    ensures var s := ParseSched("0 0 29 2 *"); s.Some? && s.value.doms == {29} && s.value.months == {2}
  {
    hide Words, CronField;
    FiveWords();
    LeapDayFields();
  }

  /** Such an expression: midnight of 29 February. It parses, and has no next fire at the epoch. */
  lemma LeapDayExpression()
    ensures var s := ParseSched("0 0 29 2 *");
            s.Some? && s.value.doms == {29} && s.value.months == {2} && NextFire(s.value, 0).None?
  {
    LeapDayParses();
    hide ParseSched, NextFire;
    LeapDayMissed(ParseSched("0 0 29 2 *").value);
  }
}
