/** The date arithmetic behind failure reasons: a closed formula from days since
    the epoch to a civil date, proved equal to counting days one by one with the
    month lengths of section 5.7 of RFC 3339 and the leap years of its Appendix C. */
module Calendar {
  import opened Basics

  type u8 = x: int | 0 <= x < 0x100
  type u32 = x: int | 0 <= x < 0x1_0000_0000
  type i32 = x: int | -0x8000_0000 <= x < 0x8000_0000
  type u64 = x: int | 0 <= x < 0x1_0000_0000_0000_0000
  type i64 = x: int | -0x8000_0000_0000_0000 <= x < 0x8000_0000_0000_0000

  datatype Date = Date(year: int, month: int, day: int)

  // ---- The reference: one day after another --------------------------------------

  predicate Leap(year: int) { year % 4 == 0 && (year % 100 != 0 || year % 400 == 0) }

  function DaysInMonth(year: int, month: int): int {
    if month == 2 then (if Leap(year) then 29 else 28)
    else if month in {4, 6, 9, 11} then 30
    else if 1 <= month <= 12 then 31
    else 0
  }

  predicate ValidDate(d: Date) { 1 <= d.month <= 12 && 1 <= d.day <= DaysInMonth(d.year, d.month) }

  function NextDay(d: Date): Date {
    if d.day < DaysInMonth(d.year, d.month) then Date(d.year, d.month, d.day + 1)
    else if d.month < 12 then Date(d.year, d.month + 1, 1)
    else Date(d.year + 1, 1, 1)
  }

  /** The date `n` days after 1 January 1970. */
  function DateAt(n: nat): Date {
    if n == 0 then Date(1970, 1, 1) else NextDay(DateAt(n - 1))
  }

  // ---- Counting years from March, in centuries and cycles of four ---------------------

  /** Day `t` of year `r` of cycle `q` of century `c` of a 400-year era. */
  datatype Count = Count(era: nat, c: nat, q: nat, r: nat, t: nat)

  /** The February that ends the year has a leap day. */
  predicate Long(k: Count) { k.r == 3 && (k.q < 24 || k.c == 3) }

  function YearLength(k: Count): nat { if Long(k) then 366 else 365 }

  predicate ValidCount(k: Count) { k.c <= 3 && k.q <= 24 && k.r <= 3 && k.t < YearLength(k) }

  function DayOfEra(k: Count): nat { 36524 * k.c + 1461 * k.q + 365 * k.r + k.t }

  function YearOfEra(k: Count): nat { 100 * k.c + 4 * k.q + k.r }

  function Value(k: Count): nat { 146097 * k.era + DayOfEra(k) }

  function Tick(k: Count): Count {
    if k.t + 1 < YearLength(k) then k.(t := k.t + 1)
    else if k.r < 3 then k.(r := k.r + 1, t := 0)
    else if k.q < 24 then k.(q := k.q + 1, r := 0, t := 0)
    else if k.c < 3 then k.(c := k.c + 1, q := 0, r := 0, t := 0)
    else Count(k.era + 1, 0, 0, 0, 0)
  }

  lemma {:induction false} TickCounts(k: Count)
    requires ValidCount(k)
    ensures ValidCount(Tick(k)) && Value(Tick(k)) == Value(k) + 1 && DayOfEra(k) < 146097
  {
  }

  /** The count at 1 January 1970 and after it. */
  function CountAt(n: nat): (k: Count)
    ensures ValidCount(k) && Value(k) == n + 719468
  {
    if n == 0 then Count(4, 3, 17, 1, 306) else
      TickCounts(CountAt(n - 1));
      Tick(CountAt(n - 1))
  }

  /** First day of month `mp`, counted from March, in its year. */
  function MonthStart(mp: nat): nat { (153 * mp + 2) / 5 }

  function MonthIndex(t: nat): nat { (5 * t + 2) / 153 }

  function DateOf(k: Count): Date {
    var mp := MonthIndex(k.t);
    var month := if mp < 10 then mp + 3 else mp - 9;
    var year := 400 * k.era + YearOfEra(k);
    Date(if month <= 2 then year + 1 else year, month, k.t - MonthStart(mp) + 1)
  }

  lemma {:induction false} MonthIndexIs(t: nat, mp: nat)
    requires mp <= 11 && MonthStart(mp) <= t < MonthStart(mp + 1) && t <= 365
    ensures MonthIndex(t) == mp
  {
  }

  lemma {:induction false} MonthFound(t: nat) returns (mp: nat)
    requires t <= 365
    ensures mp == MonthIndex(t) <= 11 && MonthStart(mp) <= t < MonthStart(mp + 1)
  {
    mp := MonthIndex(t);
  }

  /** Month lengths as the month starts spell them. */
  lemma {:induction false} MonthLengths(mp: nat, year: int)
    requires mp <= 10
    ensures MonthStart(mp + 1) - MonthStart(mp) == DaysInMonth(year, if mp < 10 then mp + 3 else 1)
  {
  }

  lemma {:induction false} LongIsLeap(k: Count, year: int)
    requires k.c <= 3 && k.q <= 24 && k.r <= 3 && year == 400 * k.era + YearOfEra(k) + 1
    ensures Long(k) <==> Leap(year)
  {
    assert year == 4 * (100 * k.era + 25 * k.c + k.q) + (k.r + 1);
    assert year == 100 * (4 * k.era + k.c) + (4 * k.q + k.r + 1);
    assert year == 400 * k.era + (100 * k.c + 4 * k.q + k.r + 1);
  }

  /** One tick of the count is one day of the calendar. */
  lemma {:induction false} TickIsNextDay(k: Count)
    requires ValidCount(k)
    ensures DateOf(Tick(k)) == NextDay(DateOf(k)) && ValidDate(DateOf(k))
  {
    var mp := MonthFound(k.t);
    if mp <= 10 {
      MonthLengths(mp, DateOf(k).year);
      MonthIndexIs(k.t + 1, if k.t + 1 < MonthStart(mp + 1) then mp else mp + 1);
    } else {
      FebruaryEnds(k);
    }
  }

  lemma {:induction false} FebruaryEnds(k: Count)
    requires ValidCount(k) && k.t >= 337
    ensures DateOf(Tick(k)) == NextDay(DateOf(k)) && ValidDate(DateOf(k))
  {
    LongIsLeap(k, 400 * k.era + YearOfEra(k) + 1);
    MonthIndexIs(k.t, 11);
    if k.t + 1 < YearLength(k) {
      MonthIndexIs(k.t + 1, 11);
    }
  }

  lemma {:induction false} CountsDays(n: nat)
    ensures DateAt(n) == DateOf(CountAt(n)) && ValidDate(DateAt(n))
  {
    if n > 0 {
      CountsDays(n - 1);
      TickIsNextDay(CountAt(n - 1));
    }
    TickIsNextDay(CountAt(n));
  }

  // ---- The closed formula ------------------------------------------------------------

  /** The formula for the year of the era finds the year of the count. */
  lemma {:induction false} YearFormula(k: Count)
    requires ValidCount(k)
    ensures var doe := DayOfEra(k);
      (doe - doe / 1460 + doe / 36524 - doe / 146096) / 365 == YearOfEra(k)
  {
    var doe := DayOfEra(k);
    var a := 24 * k.c + k.q + 365 * k.r + k.t;
    var b := 1461 * k.q + 365 * k.r + k.t;
    var extra := if a >= 1460 then 1 else 0;
    assert doe == 1460 * (25 * k.c + k.q + extra) + (a - 1460 * extra) && doe / 1460 == 25 * k.c + k.q + extra;
    var last := if b >= 36524 then 1 else 0;
    assert doe == 36524 * (k.c + last) + (b - 36524 * last) && doe / 36524 == k.c + last;
    var end := if doe >= 146096 then 1 else 0;
    assert doe / 146096 == end;
    var days := doe - doe / 1460 + doe / 36524 - doe / 146096;
    assert 0 <= days - 365 * YearOfEra(k) < 365 && days / 365 == YearOfEra(k);
  }

  lemma {:induction false} YearStart(k: Count)
    requires ValidCount(k)
    ensures var y := YearOfEra(k); 365 * y + y / 4 - y / 100 + k.t == DayOfEra(k)
  {
    var y := YearOfEra(k);
    assert y == 4 * (25 * k.c + k.q) + k.r && y / 4 == 25 * k.c + k.q;
    assert y == 100 * k.c + (4 * k.q + k.r) && y / 100 == k.c;
  }

  /** Days of the count that reaches `days` after the epoch. */
  lemma {:induction false} EraOf(k: Count, z: int)
    requires ValidCount(k) && z == Value(k)
    ensures z / 146097 == k.era && z - k.era * 146097 == DayOfEra(k) < 146097
  {
    TickCounts(k);
    assert z == 146097 * k.era + DayOfEra(k) && z / 146097 == k.era;
  }

  /** The year within its era of a day of the era. */
  function YearOfDay(doe: u32, ghost k: Count): (yoe: u32)
    requires ValidCount(k) && doe == DayOfEra(k)
    ensures yoe == YearOfEra(k) <= 399
  {
    YearFormula(k);
    var less: u32 := doe - doe / 1460;
    var more: u32 := less + doe / 36524;
    var days: u32 := more - doe / 146096;
    days / 365
  }

  /** The day within its year, counted from March. */
  function DayOfYear(doe: u32, yoe: u32, ghost k: Count): (doy: u32)
    requires ValidCount(k) && doe == DayOfEra(k) && yoe == YearOfEra(k)
    ensures doy == k.t
  {
    YearStart(k);
    var past: u32 := 365 * yoe + yoe / 4;
    var start: u32 := past - yoe / 100;
    doe - start
  }

  function MonthAndDay(doy: u32): (r: (u8, u8))
    requires doy <= 365
    ensures 1 <= r.0 <= 12 && r.0 == (if MonthIndex(doy) < 10 then MonthIndex(doy) + 3 else MonthIndex(doy) - 9)
    ensures r.1 == doy - MonthStart(MonthIndex(doy)) + 1
  {
    var mp: u32 := (5 * doy + 2) / 153;
    var before: u32 := doy - (153 * mp + 2) / 5;
    var day: u8 := before + 1;
    var month: u8 := if mp < 10 then mp + 3 else mp - 9;
    (month, day)
  }

  /** `civil_date_from_unix_days`, for days that are not negative. Every intermediate
      value is of the width the program gives it. */
  function CivilDate(days: i64): (r: Option<Date>)
    requires 0 <= days <= MAX_DAYS
    ensures r.Some? ==> r.value == DateAt(days) && 1970 <= r.value.year <= 9999
    ensures r.None? ==> DateAt(days).year > 9999
  {
    ghost var k := CountAt(days);
    var z: i64 := days + 719468;
    EraOf(k, z);
    var era: i64 := z / 146097;
    var doe: u32 := z - era * 146097;
    var yoe := YearOfDay(doe, k);
    var eras: i32 := era;
    var centuries: i32 := eras * 400;
    var y: i32 := centuries + yoe;
    var (month, day) := MonthAndDay(DayOfYear(doe, yoe, k));
    var year: i32 := if month <= 2 then y + 1 else y;
    CountsDays(days);
    NotBeforeEpoch(days);
    if 1970 <= year <= 9999 then Some(Date(year, month, day)) else None
  }

  /** Days in the largest time of 64 bits, in milliseconds. */
  const MAX_DAYS: int := 0xFFFF_FFFF_FFFF_FFFF / 1000 / 86400

  lemma {:induction false} NotBeforeEpoch(n: nat)
    ensures DateAt(n).year >= 1970
  {
    if n > 0 {
      NotBeforeEpoch(n - 1);
    }
  }

  /** Day 2932897 is 1 January 10000. */
  lemma {:induction false} LastYear(n: nat)
    ensures DateAt(n).year <= 9999 <==> n < 2932897
  {
    CountsDays(n);
    var k := CountAt(n);
    var mp := MonthFound(k.t);
    assert mp >= 10 <==> k.t >= 306;
    YearBound(k);
  }

  lemma {:induction false} YearBound(k: Count)
    requires ValidCount(k)
    ensures var year := 400 * k.era + YearOfEra(k) + if k.t >= 306 then 1 else 0;
      year <= 9999 <==> Value(k) < 3652365
  {
  }

  // ---- Dates and days correspond ---------------------------------------------------------

  lemma {:induction false} YearDetermines(j: Count, k: Count)
    requires ValidCount(j) && ValidCount(k) && 400 * j.era + YearOfEra(j) == 400 * k.era + YearOfEra(k) && j.t == k.t
    ensures j == k
  {
    YearParts(j, 400 * j.era + YearOfEra(j));
    YearParts(k, 400 * k.era + YearOfEra(k));
  }

  lemma {:induction false} YearParts(k: Count, y: nat)
    requires k.c <= 3 && k.q <= 24 && k.r <= 3 && y == 400 * k.era + YearOfEra(k)
    ensures k.era == y / 400 && k.c == y % 400 / 100 && k.q == y % 400 % 100 / 4 && k.r == y % 400 % 100 % 4
  {
    By400(y, k.era, YearOfEra(k));
    By100(YearOfEra(k), k.c, 4 * k.q + k.r);
    By4(4 * k.q + k.r, k.q, k.r);
  }

  lemma {:induction false} By400(n: nat, a: nat, b: nat)
    requires n == 400 * a + b && b < 400
    ensures n / 400 == a && n % 400 == b
  {
  }

  lemma {:induction false} By100(n: nat, a: nat, b: nat)
    requires n == 100 * a + b && b < 100
    ensures n / 100 == a && n % 100 == b
  {
  }

  lemma {:induction false} By4(n: nat, a: nat, b: nat)
    requires n == 4 * a + b && b < 4
    ensures n / 4 == a && n % 4 == b
  {
  }

  lemma {:induction false} DateDetermines(j: Count, k: Count)
    requires ValidCount(j) && ValidCount(k) && DateOf(j) == DateOf(k)
    ensures j == k
  {
    var mj := MonthFound(j.t);
    var mk := MonthFound(k.t);
    assert mj == mk;
    YearDetermines(j, k);
  }

  /** No two days have one date. */
  lemma {:induction false} DatesDiffer(m: nat, n: nat)
    ensures DateAt(m) == DateAt(n) ==> m == n
  {
    CountsDays(m);
    CountsDays(n);
    if DateAt(m) == DateAt(n) {
      DateDetermines(CountAt(m), CountAt(n));
    }
  }

  /** The count of a date. */
  function CountOf(d: Date): (k: Count)
    requires ValidDate(d) && d.year >= 1970
    ensures ValidCount(k) && DateOf(k) == d && Value(k) >= 719468
  {
    var y := if d.month <= 2 then d.year - 1 else d.year;
    var mp := if d.month > 2 then d.month - 3 else d.month + 9;
    var t := MonthStart(mp) + d.day - 1;
    var yoe := y % 400;
    var k := Count(y / 400, yoe / 100, yoe % 100 / 4, yoe % 4, t);
    CountOfIs(d, y, mp, yoe, k);
    k
  }

  lemma {:induction false} CountOfIs(d: Date, y: nat, mp: nat, yoe: nat, k: Count)
    requires ValidDate(d) && d.year >= 1970 && y == (if d.month <= 2 then d.year - 1 else d.year)
    requires mp == (if d.month > 2 then d.month - 3 else d.month + 9) && yoe == y % 400
    requires k == Count(y / 400, yoe / 100, yoe % 100 / 4, yoe % 4, MonthStart(mp) + d.day - 1)
    ensures ValidCount(k) && DateOf(k) == d && Value(k) >= 719468
  {
    assert YearOfEra(k) == yoe;
    LongIsLeap(k, y + 1);
    if mp <= 10 {
      MonthLengths(mp, d.year);
    }
    MonthIndexIs(k.t, mp);
    NotBefore(k);
  }

  lemma {:induction false} NotBefore(k: Count)
    requires ValidCount(k) && 400 * k.era + YearOfEra(k) + (if k.t >= 306 then 1 else 0) >= 1970
    ensures Value(k) >= 719468
  {
  }

  lemma {:induction false} ValueDetermines(j: Count, k: Count)
    requires ValidCount(j) && ValidCount(k) && Value(j) == Value(k)
    ensures j == k
  {
    EraOf(j, Value(j));
    EraOf(k, Value(k));
    YearFormula(j);
    YearFormula(k);
    YearStart(j);
    YearStart(k);
    YearDetermines(j, k);
  }

  /** Every date from 1970 on is the date of some day. */
  lemma {:induction false} DateReached(d: Date) returns (n: nat)
    requires ValidDate(d) && d.year >= 1970
    ensures DateAt(n) == d
  {
    var k := CountOf(d);
    n := Value(k) - 719468;
    CountsDays(n);
    ValueDetermines(k, CountAt(n));
  }
}
