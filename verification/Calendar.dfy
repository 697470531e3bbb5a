/** The proleptic Gregorian calendar that schedules are matched against. */
module Calendar {
  datatype Date = Date(year: int, month: int, day: int)

  predicate Leap(y: int) { y % 4 == 0 && (y % 100 != 0 || y % 400 == 0) }

  function DaysIn(y: int, m: int): int {
    if m == 2 then (if Leap(y) then 29 else 28)
    else if m == 4 || m == 6 || m == 9 || m == 11 then 30
    else 31
  }

  predicate ValidDate(d: Date) { 1 <= d.month <= 12 && 1 <= d.day <= DaysIn(d.year, d.month) }

  /** date + timedelta(days=1) */
  function Next(d: Date): (r: Date)
    requires ValidDate(d)
    ensures ValidDate(r)
  {
    if d.day < DaysIn(d.year, d.month) then d.(day := d.day + 1)
    else if d.month < 12 then Date(d.year, d.month + 1, 1)
    else Date(d.year + 1, 1, 1)
  }

  function Previous(d: Date): (r: Date)
    requires ValidDate(d)
    ensures ValidDate(r) && Next(r) == d
  {
    if d.day > 1 then d.(day := d.day - 1)
    else if d.month > 1 then Date(d.year, d.month - 1, DaysIn(d.year, d.month - 1))
    else Date(d.year - 1, 12, 31)
  }

  const EPOCH: Date := Date(1970, 1, 1)

  /** The date so many days after the epoch. */
  function DateOf(n: int): (d: Date)
    ensures ValidDate(d)
    decreases if n < 0 then -n else n
  {
    if n == 0 then EPOCH else if n > 0 then Next(DateOf(n - 1)) else Previous(DateOf(n + 1))
  }

  lemma DateOfNext(n: int)
    ensures DateOf(n + 1) == Next(DateOf(n))
  {
  }

  // ---------------------------------------------------------------------------- closed day counts

  /** Days before a year, counted from 1 January of the year 1. */
  function BeforeYear(y: int): int {
    var p := y - 1;
    p * 365 + p / 4 - p / 100 + p / 400
  }

  /** Days of the year before a month. */
  function BeforeMonth(y: int, m: int): int
    requires 1 <= m <= 12
  {
    if m == 1 then 0 else BeforeMonth(y, m - 1) + DaysIn(y, m - 1)
  }

  /** toordinal() */
  function Ordinal(d: Date): int
    requires ValidDate(d)
  {
    BeforeYear(d.year) + BeforeMonth(d.year, d.month) + d.day
  }

  /** Dividing steps up exactly at the multiples. */
  lemma StepsAt(y: int, k: int)
    requires k > 0
    ensures y / k - (y - 1) / k == if y % k == 0 then 1 else 0
  {
    var q, r := y / k, y % k;
    assert y == k * q + r;
    if r == 0 {
      Quotient(y - 1, k, q - 1, k - 1);
    } else {
      Quotient(y - 1, k, q, r - 1);
    }
  }

  lemma Quotient(n: int, k: int, q: int, r: int)
    requires k > 0 && n == k * q + r && 0 <= r < k
    ensures n / k == q
  {
    var p := n / k;
    assert n == k * p + n % k;
    if p > q {
      assert k * p >= k * (q + 1) by { Scale(k, q + 1, p); }
    } else if p < q {
      assert k * q >= k * (p + 1) by { Scale(k, p + 1, q); }
    }
  }

  lemma Scale(k: int, a: int, b: int)
    requires k > 0 && a <= b
    ensures k * a <= k * b
  {
  }

  lemma MultipleOf(y: int, k: int, q: int)
    requires k > 0 && y == k * q
    ensures y % k == 0
  {
    Quotient(y, k, q, 0);
    assert y == k * (y / k) + y % k;
  }

  lemma CenturyMods(y: int)
    ensures y % 400 == 0 ==> y % 100 == 0
    ensures y % 100 == 0 ==> y % 4 == 0
  {
    if y % 100 == 0 {
      MultipleOf(y, 4, 25 * (y / 100));
    }
    if y % 400 == 0 {
      MultipleOf(y, 100, 4 * (y / 400));
    }
  }

  lemma YearLength(y: int)
    ensures BeforeYear(y + 1) - BeforeYear(y) == if Leap(y) then 366 else 365
  {
    StepsAt(y, 4);
    StepsAt(y, 100);
    StepsAt(y, 400);
    CenturyMods(y);
  }

  lemma YearSum(y: int)
    ensures BeforeMonth(y, 12) + 31 == if Leap(y) then 366 else 365
  {
    assert BeforeMonth(y, 3) == BeforeMonth(y, 2) + DaysIn(y, 2) == 31 + DaysIn(y, 2);
    assert BeforeMonth(y, 5) == BeforeMonth(y, 4) + 30 == BeforeMonth(y, 3) + 61;
    assert BeforeMonth(y, 7) == BeforeMonth(y, 6) + 30 == BeforeMonth(y, 5) + 61;
    assert BeforeMonth(y, 9) == BeforeMonth(y, 8) + 31 == BeforeMonth(y, 7) + 62;
    assert BeforeMonth(y, 11) == BeforeMonth(y, 10) + 31 == BeforeMonth(y, 9) + 61;
  }

  /** The next day has the next ordinal, over month ends, year ends and leap days. */
  lemma OrdinalNext(d: Date)
    requires ValidDate(d)
    ensures Ordinal(Next(d)) == Ordinal(d) + 1
  {
    if d.day == DaysIn(d.year, d.month) && d.month == 12 {
      YearLength(d.year);
      YearSum(d.year);
    }
  }

  const EPOCH_ORDINAL: int := 719163

  /** Stepping from the epoch and the closed form agree, so a date and its timestamp determine each
      other. */
  lemma {:induction false} OrdinalOf(n: int)
    ensures Ordinal(DateOf(n)) == EPOCH_ORDINAL + n
    decreases if n < 0 then -n else n
  {
    if n > 0 {
      OrdinalOf(n - 1);
      OrdinalNext(DateOf(n - 1));
    } else if n < 0 {
      OrdinalOf(n + 1);
      OrdinalNext(Previous(DateOf(n + 1)));
    }
  }

  /** isoweekday() % 7: Sunday is 0, as in a schedule. */
  function Weekday(d: Date): int
    requires ValidDate(d)
  {
    ((Ordinal(d) + 6) % 7 + 1) % 7
  }

  lemma Week(a: int, c: int)
    ensures (a % 7 + 1) % 7 == (a + 1 - 7 * c) % 7
  {
    var q, r := a / 7, a % 7;
    assert a + 1 - 7 * c == 7 * (q - c) + (r + 1);
    if r < 6 {
      Quotient(a + 1 - 7 * c, 7, q - c, r + 1);
    } else {
      Quotient(a + 1 - 7 * c, 7, q - c + 1, 0);
    }
  }

  lemma WeekdayOf(n: int)
    ensures Weekday(DateOf(n)) == (n + 4) % 7
  {
    OrdinalOf(n);
    hide DateOf, Ordinal;
    Week(EPOCH_ORDINAL + n + 6, 102738);
  }
}
