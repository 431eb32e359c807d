/** The text of an authentication failure observed in a turn: a fixed prefix and a
    UTC minute. */
module TurnReason {
  import opened Basics
  import opened Calendar

  const PREFIX := "auth failed in a turn at "

  datatype Minute = Minute(date: Date, hour: int, minute: int)

  /** `utc_minute_from_millis` */
  function UtcMinute(at: u64): (r: Option<Minute>)
    ensures r.Some? <==> DateAt(at / 86_400_000).year <= 9999
    ensures r.Some? ==> r.value == MinuteAt(at / 60_000)
  {
    var seconds: u64 := at / 1000;
    var minuteOfDay: u32 := seconds / 60 % 1440;
    var hour: u8 := minuteOfDay / 60;
    var minute: u8 := minuteOfDay % 60;
    var days: i64 := seconds / 86400;
    MillisParts(at);
    match CivilDate(days)
    case Some(date) => Some(Minute(date, hour, minute))
    case None => None
  }

  /** The reference: minute `m` since the epoch. */
  function MinuteAt(m: nat): Minute { Minute(DateAt(m / 1440), m % 1440 / 60, m % 60) }

  lemma {:induction false} MillisParts(at: nat)
    ensures at / 1000 / 60 == at / 60_000 && at / 1000 / 86400 == at / 86_400_000 == at / 60_000 / 1440
    ensures at / 60_000 % 1440 % 60 == at / 60_000 % 60
  {
  }

  function Digit(n: nat): char
    requires n <= 9
  {
    "0123456789"[n]
  }

  function Two(n: int): string
    requires 0 <= n <= 99
  {
    [Digit(n / 10), Digit(n % 10)]
  }

  function Four(n: int): string
    requires 0 <= n <= 9999
  {
    Two(n / 100) + Two(n % 100)
  }

  predicate Writable(m: Minute) {
    ValidDate(m.date) && 1970 <= m.date.year <= 9999 && 0 <= m.hour <= 23 && 0 <= m.minute <= 59
  }

  function Stamp(m: Minute): string
    requires Writable(m)
  {
    Four(m.date.year) + "-" + Two(m.date.month) + "-" + Two(m.date.day) + "T" + Two(m.hour) + ":" + Two(m.minute) + "Z"
  }

  lemma {:induction false} MinuteWritable(m: nat)
    requires DateAt(m / 1440).year <= 9999
    ensures Writable(MinuteAt(m))
  {
    CountsDays(m / 1440);
    NotBeforeEpoch(m / 1440);
  }

  /** `format_turn_auth_failure_reason` */
  function Reason(at: u64): Option<string> {
    match UtcMinute(at)
    case None => None
    case Some(m) =>
      MillisParts(at);
      MinuteWritable(at / 60_000);
      Some(PREFIX + Stamp(m))
  }

  // ---- The recogniser -------------------------------------------------------------------

  predicate IsDigit(c: char) { '0' <= c <= '9' }

  function DigitValue(c: char): (n: nat)
    requires IsDigit(c)
    ensures n <= 9 && Digit(n) == c
  {
    c as nat - '0' as nat
  }

  /** The value of a run of digits, as the integer parser reads it. */
  function Number(s: string): nat
    requires forall i :: 0 <= i < |s| ==> IsDigit(s[i])
  {
    if s == "" then 0 else Number(s[..|s| - 1]) * 10 + DigitValue(s[|s| - 1])
  }

  predicate Shaped(s: string) {
    && |s| == 17 && s[4] == '-' && s[7] == '-' && s[10] == 'T' && s[13] == ':' && s[16] == 'Z'
    && forall i :: 0 <= i < 17 && i !in {4, 7, 10, 13, 16} ==> IsDigit(s[i])
  }

  function Parsed(s: string): Minute
    requires Shaped(s)
  {
    Minute(Date(Number(s[0..4]), Number(s[5..7]), Number(s[8..10])), Number(s[11..13]), Number(s[14..16]))
  }

  /** `is_turn_auth_failure_reason` */
  predicate IsReason(value: string) {
    && PREFIX <= value && Shaped(value[|PREFIX|..])
    && var m := Parsed(value[|PREFIX|..]);
      && 1970 <= m.date.year <= 9999 && 1 <= m.date.month <= 12 && m.hour <= 23 && m.minute <= 59
      && 1 <= m.date.day <= DaysInMonth(m.date.year, m.date.month)
  }

  lemma {:induction false} NumberTwo(s: string, n: int)
    requires 0 <= n <= 99 && s == Two(n)
    ensures (forall i :: 0 <= i < |s| ==> IsDigit(s[i])) && Number(s) == n
  {
    assert s[..1] == [Digit(n / 10)] && s[..1][..0] == "";
    assert Number(s[..1]) == n / 10;
  }

  lemma {:induction false} NumberFour(s: string, n: int)
    requires 0 <= n <= 9999 && s == Four(n)
    ensures (forall i :: 0 <= i < |s| ==> IsDigit(s[i])) && Number(s) == n
  {
    var a, b := n / 100, n % 100;
    NumberTwo(Two(a), a);
    assert s[..3][..2] == Two(a) == s[..2];
    assert Number(s[..3]) == Number(s[..2]) * 10 + b / 10;
  }

  lemma {:induction false} StampParses(m: Minute)
    requires Writable(m)
    ensures Shaped(Stamp(m)) && Parsed(Stamp(m)) == m
  {
    var s := Stamp(m);
    assert s[0..4] == Four(m.date.year);
    assert s[5..7] == Two(m.date.month);
    assert s[8..10] == Two(m.date.day);
    assert s[11..13] == Two(m.hour);
    assert s[14..16] == Two(m.minute);
    NumberFour(s[0..4], m.date.year);
    NumberTwo(s[5..7], m.date.month);
    NumberTwo(s[8..10], m.date.day);
    NumberTwo(s[11..13], m.hour);
    NumberTwo(s[14..16], m.minute);
  }

  lemma {:induction false} TwoNumber(s: string)
    requires |s| == 2 && forall i :: 0 <= i < |s| ==> IsDigit(s[i])
    ensures Number(s) == 10 * DigitValue(s[0]) + DigitValue(s[1]) <= 99 && Two(Number(s)) == s
  {
    assert s[..1][..0] == "";
    assert Number(s[..1]) == DigitValue(s[0]);
  }

  lemma {:induction false} FourNumber(s: string)
    requires |s| == 4 && forall i :: 0 <= i < |s| ==> IsDigit(s[i])
    ensures Number(s) <= 9999 && Four(Number(s)) == s
  {
    var front, back := s[..2], s[2..];
    TwoNumber(front);
    TwoNumber(back);
    assert s[..3][..2] == front;
    assert Number(s[..3]) == Number(front) * 10 + DigitValue(s[2]);
    By100(Number(s), Number(front), Number(back));
    assert s == front + back;
  }

  lemma {:induction false} ParseStamps(s: string)
    requires Shaped(s) && Writable(Parsed(s))
    ensures Stamp(Parsed(s)) == s
  {
    FourNumber(s[0..4]);
    TwoNumber(s[5..7]);
    TwoNumber(s[8..10]);
    TwoNumber(s[11..13]);
    TwoNumber(s[14..16]);
    Pieces(s);
  }

  lemma {:induction false} Pieces(s: string)
    requires |s| == 17 && s[4] == '-' && s[7] == '-' && s[10] == 'T' && s[13] == ':' && s[16] == 'Z'
    ensures s == s[0..4] + "-" + s[5..7] + "-" + s[8..10] + "T" + s[11..13] + ":" + s[14..16] + "Z"
  {
    var day, time := s[0..4] + "-" + s[5..7] + "-" + s[8..10], s[11..13] + ":" + s[14..16] + "Z";
    assert s[..10] == day;
    assert s[11..] == time;
    assert s == day + "T" + time;
  }

  // ---- Laws --------------------------------------------------------------------------------

  /** A reason exists exactly before the year 10000, and the recogniser accepts it. */
  lemma {:induction false} ReasonLaw(at: u64)
    ensures Reason(at).Some? <==> at < 253_402_300_800_000
    ensures Reason(at).Some? ==> IsReason(Reason(at).value)
  {
    LastYear(at / 86_400_000);
    if Reason(at).Some? {
      MillisParts(at);
      MinuteWritable(at / 60_000);
      StampParses(MinuteAt(at / 60_000));
      assert Reason(at).value[|PREFIX|..] == Stamp(MinuteAt(at / 60_000));
    }
  }

  /** Two decimal digits at `i` show the number. */
  predicate ShowsAt(s: string, i: nat, n: int) {
    && i + 1 < |s| && '0' <= s[i] <= '9' && '0' <= s[i + 1] <= '9'
    && n == (s[i] as int - '0' as int) * 10 + (s[i + 1] as int - '0' as int)
  }

  lemma {:induction false} TwoShows(s: string, i: nat, n: int)
    requires 0 <= n <= 99 && i + 2 <= |s| && s[i..i + 2] == Two(n)
    ensures ShowsAt(s, i, n)
  {
    assert s[i] == s[i..i + 2][0] && s[i + 1] == s[i..i + 2][1];
    DigitIs(n / 10);
    DigitIs(n % 10);
  }

  lemma {:induction false} DigitIs(n: nat)
    requires n <= 9
    ensures Digit(n) as int == '0' as int + n
  {
  }

  /** The text says when it was: year, month and day of the date that counting days from the
      epoch gives, then hour and minute of the day. */
  lemma {:induction false} TextLaw(at: u64)
    requires Reason(at).Some?
    ensures var r, date := Reason(at).value, DateAt(at / 86_400_000);
      && |r| == 42 && r[..|PREFIX|] == PREFIX == "auth failed in a turn at "
      && ShowsMinute(r, |PREFIX|, Minute(date, at / 3_600_000 % 24, at / 60_000 % 60))
  {
    MillisParts(at);
    MinuteWritable(at / 60_000);
    HourOf(at);
    var m := MinuteAt(at / 60_000);
    StampShows(m);
    Behind(PREFIX, Stamp(m), Reason(at).value, m);
  }

  /** What a stamp shows, from place `k` on. */
  ghost predicate ShowsMinute(s: string, k: nat, m: Minute) {
    && |s| == k + 17 && s[k + 4] == s[k + 7] == '-' && s[k + 10] == 'T' && s[k + 13] == ':' && s[k + 16] == 'Z'
    && ShowsAt(s, k, m.date.year / 100) && ShowsAt(s, k + 2, m.date.year % 100)
    && ShowsAt(s, k + 5, m.date.month) && ShowsAt(s, k + 8, m.date.day)
    && ShowsAt(s, k + 11, m.hour) && ShowsAt(s, k + 14, m.minute)
  }

  lemma {:induction false} StampShows(m: Minute)
    requires Writable(m)
    ensures ShowsMinute(Stamp(m), 0, m)
  {
    var s := Stamp(m);
    assert s[0..2] == Two(m.date.year / 100) && s[2..4] == Two(m.date.year % 100);
    assert s[5..7] == Two(m.date.month) && s[8..10] == Two(m.date.day);
    assert s[11..13] == Two(m.hour) && s[14..16] == Two(m.minute);
    PartsShow(s, m);
  }

  lemma {:induction false} PartsShow(s: string, m: Minute)
    requires Writable(m) && |s| == 17 && s[4] == s[7] == '-' && s[10] == 'T' && s[13] == ':' && s[16] == 'Z'
    requires s[0..2] == Two(m.date.year / 100) && s[2..4] == Two(m.date.year % 100)
    requires s[5..7] == Two(m.date.month) && s[8..10] == Two(m.date.day)
    requires s[11..13] == Two(m.hour) && s[14..16] == Two(m.minute)
    ensures ShowsMinute(s, 0, m)
  {
    TwoShows(s, 0, m.date.year / 100);
    TwoShows(s, 2, m.date.year % 100);
    TwoShows(s, 5, m.date.month);
    TwoShows(s, 8, m.date.day);
    TwoShows(s, 11, m.hour);
    TwoShows(s, 14, m.minute);
  }

  lemma {:induction false} Behind(p: string, s: string, r: string, m: Minute)
    requires ShowsMinute(s, 0, m) && r == p + s
    ensures ShowsMinute(r, |p|, m) && r[..|p|] == p
  {
    assert forall i :: 0 <= i < |s| ==> r[|p| + i] == s[i];
  }

  lemma {:induction false} HourOf(at: nat)
    ensures at / 60_000 % 1440 / 60 == at / 3_600_000 % 24
  {
    assert at / 3_600_000 == at / 60_000 / 60;
    HourPart(at / 60_000 / 1440, at / 60_000 % 1440 / 60, at / 60_000 % 1440 % 60, at / 60_000);
  }

  lemma {:induction false} HourPart(day: nat, hour: nat, minute: nat, m: nat)
    requires m == 1440 * day + 60 * hour + minute && hour < 24 && minute < 60
    ensures m / 60 % 24 == hour
  {
    assert m / 60 == 24 * day + hour;
  }

  /** Two times have one text exactly when they fall in one minute. */
  lemma {:induction false} SameMinuteLaw(a: u64, b: u64)
    requires Reason(a).Some? && Reason(b).Some?
    ensures Reason(a) == Reason(b) <==> a / 60_000 == b / 60_000
  {
    var m, n := a / 60_000, b / 60_000;
    MillisParts(a);
    MillisParts(b);
    MinuteWritable(m);
    MinuteWritable(n);
    if Reason(a) == Reason(b) {
      assert Reason(a).value[|PREFIX|..] == Stamp(MinuteAt(m));
      assert Reason(b).value[|PREFIX|..] == Stamp(MinuteAt(n));
      StampParses(MinuteAt(m));
      StampParses(MinuteAt(n));
      MinutesDiffer(m, n);
    }
  }

  lemma {:induction false} MinutesDiffer(m: nat, n: nat)
    requires MinuteAt(m) == MinuteAt(n)
    ensures m == n
  {
    DatesDiffer(m / 1440, n / 1440);
    assert m == m / 1440 * 1440 + m % 1440 / 60 * 60 + m % 60;
    assert n == n / 1440 * 1440 + n % 1440 / 60 * 60 + n % 60;
  }

  /** The recogniser accepts nothing but reasons. */
  lemma {:induction false} AcceptedIsReason(value: string) returns (at: u64)
    requires IsReason(value)
    ensures Reason(at) == Some(value)
  {
    var s := value[|PREFIX|..];
    var m := Parsed(s);
    var n := DateReached(m.date);
    LastYear(n);
    at := (n * 1440 + m.hour * 60 + m.minute) * 60_000;
    MillisParts(at);
    assert at / 60_000 == n * 1440 + m.hour * 60 + m.minute;
    assert MinuteAt(at / 60_000) == m;
    ParseStamps(s);
    assert value == PREFIX + s;
  }
}
