/** Clock time and date: the Modified Julian Day formula (IEC 62106, Annex G) and group 4A. */
module Clock {
  import opened Arithmetic
  import opened Bits
  import opened BlockCode
  import opened Config
  import opened Groups

  /** Broken-down UTC time as the C library delivers it: tm_mon counts from 0 and tm_year from
      1900. */
  datatype Tm = Tm(min: int, hour: int, mday: int, mon: int, year: int)

  /** The two conversions of the current time; either may fail. */
  datatype Time = NoUtc | NoLocal | Now(utc: Tm, localHour: int)

  /** Conversion of a quotient to int: toward zero. */
  function Truncate(a: int, b: nat): int
    requires b > 0
  {
    if a >= 0 then a / b else -(-a / b)
  }

  /** 14956 + day + (int)((year - leap) * 365.25) + (int)((month + 1 + 12 * leap) * 30.6001) */
  function Mjd(day: int, month: int, year: int): int {
    var leap := if month <= 2 then 1 else 0;
    14956 + day + Truncate((year - leap) * 1461, 4) + Truncate((month + 1 + leap * 12) * 306001, 10000)
  }

  /** The top two bits of the day. */
  function DayTail(mjd: int): (t: seq<bool>)
    ensures |t| == 5
  {
    Zeros(3) + ToBits(mjd / 32768, 2)
  }

  /** The rest of the day and the top bit of the hour. */
  function DayWord(mjd: int, hour: int): Word16 {
    ToBits(mjd, 15) + ToBits(hour / 16, 1)
  }

  /** The rest of the hour, five bits of the minute and the local offset: its sign, then its
      size in half hours. */
  function TimeWord(hour: int, min: int, tz: int): Word16 {
    ToBits(hour, 4) + ([false] + ToBits(min, 5))
      + ([!(tz > 0)] + ToBits(if tz < 0 then -2 * tz else 2 * tz, 5))
  }

  function Build4A(st: State, vcode: U4, utc: Tm, localHour: int): Built {
    var mjd := Mjd(utc.mday, utc.mon + 1, utc.year);
    Built(Message(ToBits(st.station.pi, 16),
                  SecondWord(Clock4A, st.station, DayTail(mjd)),
                  DayWord(mjd, utc.hour),
                  TimeWord(utc.hour, utc.min, localHour - utc.hour),
                  false),
          st, vcode)
  }

  // ---------- The receiver ----------

  function ReadDay(m: Message): nat {
    Value(m.w2[14..] + m.w3[..15])
  }

  function ReadHour(m: Message): nat {
    Value(m.w3[15..] + m.w4[..4])
  }

  function ReadMinute(m: Message): nat {
    Value(m.w4[4..10])
  }

  /** A receiver of group 4A reads the day and the hour as they were; the minute has lost its
      top bit, so that it is read correctly exactly in the first 32 minutes of every hour. */
  lemma ClockGroupDecodes(st: State, vcode: U4, utc: Tm, localHour: int)
    requires 0 <= utc.hour < 24 && 0 <= utc.min < 60
    ensures var m, mjd := Build4A(st, vcode, utc, localHour).msg, Mjd(utc.mday, utc.mon + 1, utc.year);
            && (0 <= mjd < 131072 ==> ReadDay(m) == mjd)
            && ReadHour(m) == utc.hour
            && ReadMinute(m) == utc.min % 32
            && (ReadMinute(m) == utc.min <==> utc.min < 32)
  {
    var mjd := Mjd(utc.mday, utc.mon + 1, utc.year);
    DayBits(mjd);
    HourBits(utc.hour);
    MinuteBits(utc.min);
    DayFields(st.station, mjd, utc.hour);
    TimeFields(utc.hour, utc.min, localHour - utc.hour);
  }

  /** The local offset in half hours: its sign, then its size. */
  function ReadOffset(m: Message): int {
    var size: int := Value(m.w4[11..]);
    if m.w4[10] then -size else size
  }

  /** The hour of a time zone, z hours east of Greenwich. */
  function LocalHour(hour: int, z: int): int {
    (hour + z) % 24
  }

  /** The offset is taken from the two hours alone: a receiver reads that of the time zone exactly
      while the date there is that of Greenwich. */
  lemma OffsetIsReadIff(st: State, vcode: U4, utc: Tm, z: int)
    requires 0 <= utc.hour < 24 && -12 <= z <= 14
    ensures ReadOffset(Build4A(st, vcode, utc, LocalHour(utc.hour, z)).msg) == 2 * z <==> 0 <= utc.hour + z < 24
  {
    var tz := LocalHour(utc.hour, z) - utc.hour;
    OffsetIsRead(st, vcode, utc, LocalHour(utc.hour, z), tz);
  }

  /** A receiver reads the difference of the two hours, if it is at most 15 hours. */
  lemma OffsetIsRead(st: State, vcode: U4, utc: Tm, localHour: int, tz: int)
    requires tz == localHour - utc.hour
    ensures var size := (if tz < 0 then -2 * tz else 2 * tz) % 32;
            ReadOffset(Build4A(st, vcode, utc, localHour).msg) == if tz > 0 then size else -size
  {
    TimeFields(utc.hour, utc.min, tz);
    Powers();
    ValueOfBits(if tz < 0 then -2 * tz else 2 * tz, 5);
  }

  lemma DayFields(s: Station, mjd: int, hour: int)
    ensures SecondWord(Clock4A, s, DayTail(mjd))[14..] == ToBits(mjd / 32768, 2)
    ensures DayWord(mjd, hour)[..15] == ToBits(mjd, 15)
    ensures DayWord(mjd, hour)[15..] == ToBits(hour / 16, 1)
  {
  }

  lemma TimeFields(hour: int, min: int, tz: int)
    ensures TimeWord(hour, min, tz)[..4] == ToBits(hour, 4)
    ensures TimeWord(hour, min, tz)[4..10] == [false] + ToBits(min, 5)
    ensures TimeWord(hour, min, tz)[10] == !(tz > 0)
    ensures TimeWord(hour, min, tz)[11..] == ToBits(if tz < 0 then -2 * tz else 2 * tz, 5)
  {
  }

  lemma DayBits(mjd: int)
    ensures 0 <= mjd < 131072 ==> Value(ToBits(mjd / 32768, 2) + ToBits(mjd, 15)) == mjd
  {
    Powers();
    ValueOfParts(mjd, 2, 15);
  }

  lemma HourBits(hour: int)
    requires 0 <= hour < 32
    ensures Value(ToBits(hour / 16, 1) + ToBits(hour, 4)) == hour
  {
    Powers();
    ValueOfParts(hour, 1, 4);
  }

  lemma MinuteBits(min: int)
    ensures Value([false] + ToBits(min, 5)) == min % 32
  {
    Powers();
    ValueOfBits(min, 5);
    ValueOfPadded(1, ToBits(min, 5));
    assert Zeros(1) == [false];
  }

  lemma Powers()
    ensures Pow2(1) == 2 && Pow2(4) == 16 && Pow2(5) == 32 && Pow2(6) == 64
    ensures Pow2(15) == 32768 && Pow2(17) == 131072
  {
    assert Pow2(3) == 8;
    assert Pow2(8) == 256 by { assert Pow2(7) == 128; }
    assert Pow2(12) == 4096 by { assert Pow2(10) == 1024; }
  }

  // ---------- The Gregorian calendar ----------

  predicate Leap(y: int) {
    y % 4 == 0 && (y % 100 != 0 || y % 400 == 0)
  }

  function MonthLength(m: nat, y: int): nat
    requires 1 <= m <= 12
  {
    if m == 2 then if Leap(y) then 29 else 28
    else if m == 4 || m == 6 || m == 9 || m == 11 then 30 else 31
  }

  function YearLength(y: int): nat {
    if Leap(y) then 366 else 365
  }

  datatype Date = Date(d: nat, m: nat, y: nat)

  /** A date of the Gregorian calendar, from 1800 on. */
  predicate IsDate(t: Date) {
    t.y >= 1800 && 1 <= t.m <= 12 && 1 <= t.d <= MonthLength(t.m, t.y)
  }

  /** The day after. */
  function Tomorrow(t: Date): Date
    requires IsDate(t)
  {
    if t.d < MonthLength(t.m, t.y) then Date(t.d + 1, t.m, t.y)
    else if t.m < 12 then Date(1, t.m + 1, t.y)
    else Date(1, 1, t.y + 1)
  }

  function DaysBeforeYear(y: nat): nat
    requires y >= 1800
  {
    if y == 1800 then 0 else DaysBeforeYear(y - 1) + YearLength(y - 1)
  }

  function DaysBeforeMonth(m: nat, y: int): nat
    requires 1 <= m <= 12
  {
    if m == 1 then 0 else DaysBeforeMonth(m - 1, y) + MonthLength(m - 1, y)
  }

  /** The day count, from the lengths of the years and months. Day 0 is 17 November 1858. */
  function DayCount(t: Date): int
    requires IsDate(t)
  {
    DaysBeforeYear(t.y) + DaysBeforeMonth(t.m, t.y) + t.d - 1 - 21504
  }

  /** The count is a day count: each day adds one. */
  lemma DayCountCounts(t: Date)
    requires IsDate(t)
    ensures IsDate(Tomorrow(t)) && DayCount(Tomorrow(t)) == DayCount(t) + 1
  {
    if t.d == MonthLength(t.m, t.y) && t.m == 12 {
      MonthOffsets(12, t.y);
    }
  }

  lemma DayCountStarts()
    ensures DayCount(Date(17, 11, 1858)) == 0
  {
    MonthOffsets(11, 1858);
    LeapYearsBefore(1858);
  }

  // ---------- The formula is the day count ----------

  lemma MonthOffsets(m: nat, y: int)
    requires 1 <= m <= 12
    ensures var l := if Leap(y) then 1 else 0;
            DaysBeforeMonth(m, y) ==
            if m == 1 then 0 else if m == 2 then 31 else if m == 3 then 59 + l else if m == 4 then 90 + l
            else if m == 5 then 120 + l else if m == 6 then 151 + l else if m == 7 then 181 + l
            else if m == 8 then 212 + l else if m == 9 then 243 + l else if m == 10 then 273 + l
            else if m == 11 then 304 + l else 334 + l
  {
    if m > 1 { MonthOffsets(m - 1, y); }
  }

  /** Closed form of the days before a year; y / 4 - y / 100 + y / 400 counts leap years. */
  lemma {:induction false} LeapYearsBefore(y: nat)
    requires y >= 1800
    ensures DaysBeforeYear(y) ==
            365 * (y - 1800) + ((y - 1) / 4 - (y - 1) / 100 + (y - 1) / 400) - 436
  {
    if y > 1800 {
      LeapYearsBefore(y - 1);
      LeapStep(y - 1);
    }
  }

  lemma LeapStep(y: nat)
    requires y >= 1
    ensures y / 4 - y / 100 + y / 400 - ((y - 1) / 4 - (y - 1) / 100 + (y - 1) / 400) ==
            if Leap(y) then 1 else 0
  {
    QuotientStep(y, 4);
    QuotientStep(y, 100);
    QuotientStep(y, 400);
    assert y % 400 == 0 ==> y % 100 == 0 by { assert y == 400 * (y / 400) + y % 400; }
    assert y % 100 == 0 ==> y % 4 == 0 by { assert y == 100 * (y / 100) + y % 100; }
  }

  lemma QuotientStep(y: nat, d: nat)
    requires y >= 1 && d >= 2
    ensures y / d == (y - 1) / d + if y % d == 0 then 1 else 0
  {
    var q, r := y / d, y % d;
    assert y == d * q + r;
    if r == 0 {
      assert y - 1 == d * (q - 1) + (d - 1);
      DivModUnique(y - 1, d, q - 1, d - 1);
    } else {
      DivModUnique(y - 1, d, q, r - 1);
    }
  }

  /** The year that begins on 1 March. */
  function MarchYear(t: Date): int {
    if t.m <= 2 then t.y - 1 else t.y
  }

  /** The month term of the formula counts the days since 1 March. */
  lemma MonthTerm(m: nat)
    requires 3 <= m <= 14
    ensures var k := (m + 1) * 306001 / 10000 - 122;
            k == if m == 3 then 0 else if m == 4 then 31 else if m == 5 then 61 else if m == 6 then 92
                 else if m == 7 then 122 else if m == 8 then 153 else if m == 9 then 184
                 else if m == 10 then 214 else if m == 11 then 245 else if m == 12 then 275
                 else if m == 13 then 306 else 337
  {
  }

  /** The formula misses the day count by the leap days it assumes wrongly. */
  lemma FormulaError(t: Date)
    requires IsDate(t) && MarchYear(t) >= 1800
    ensures var y := MarchYear(t);
            Mjd(t.d, t.m, t.y - 1900) - DayCount(t) ==
            24 + Truncate(y - 1900, 4) - (y / 4 - y / 100 + y / 400 - 436)
  {
    LeapYearsBefore(t.y);
    YearTerm(MarchYear(t) - 1900);
    MonthsAgree(t.m, t.y);
    if t.m > 2 { LeapStep(t.y); }
  }

  /** The month terms of the formula and of the day count differ by a constant. */
  lemma MonthsAgree(m: nat, y: int)
    requires 1 <= m <= 12
    ensures var k := if m <= 2 then m + 12 else m;
            (k + 1) * 306001 / 10000 ==
            DaysBeforeMonth(m, y) + if m <= 2 then 428 else 63 - if Leap(y) then 1 else 0
  {
    MonthOffsets(m, y);
    MonthTerm(if m <= 2 then m + 12 else m);
  }

  lemma YearTerm(n: int)
    ensures Truncate(n * 1461, 4) == 365 * n + Truncate(n, 4)
  {
  }

  /** Centuries are enough to count the exceptions to the leap-year rule of four. */
  lemma Centuries(y: nat)
    ensures y / 400 == y / 100 / 4
  {
    var c := y / 100;
    assert y == 100 * c + y % 100 && c == 4 * (c / 4) + c % 4;
    DivModUnique(y, 400, c / 4, 100 * (c % 4) + y % 100);
  }

  lemma Century(y: nat, c: nat)
    requires 100 * c <= y < 100 * c + 100
    ensures y / 100 == c
  {
    DivModUnique(y, 100, c, y - 100 * c);
  }

  lemma QuartersFrom(y: nat, q: nat)
    requires 4 * q <= y
    ensures y / 4 == q + (y - 4 * q) / 4
  {
  }

  lemma LeapsBefore1900(y: nat)
    requires 1800 <= y < 1900
    ensures y / 4 - y / 100 + y / 400 == 436 + (y - 1800) / 4
  {
    Century(y, 18);
    Centuries(y);
    QuartersFrom(y, 450);
  }

  lemma LeapsBefore2100(y: nat)
    requires 1900 <= y < 2100
    ensures y / 4 - y / 100 + y / 400 == 460 + (y - 1900) / 4
  {
    Century(y, if y < 2000 then 19 else 20);
    Centuries(y);
    QuartersFrom(y, 475);
  }

  lemma LeapsFrom2100(y: nat)
    requires 2100 <= y
    ensures y / 4 - y / 100 + y / 400 < 460 + (y - 1900) / 4
  {
    var c := y / 100;
    assert c >= 21 by { assert y == 100 * c + y % 100; }
    assert c - c / 4 >= 16;
    Centuries(y);
    QuartersFrom(y, 475);
  }

  /** The Annex G formula, as the encoder computes it, is the true day count exactly for the
      dates from 1 March 1900 to 28 February 2100, and before them for the years (counted from
      1 March) that are not divisible by four. */
  lemma FormulaIsExactIff(t: Date)
    requires IsDate(t) && MarchYear(t) >= 1800
    ensures var y := MarchYear(t);
            Mjd(t.d, t.m, t.y - 1900) == DayCount(t) <==>
            (1900 <= y < 2100 || (y < 1900 && y % 4 != 0))
  {
    FormulaError(t);
    var y := MarchYear(t);
    if y < 1900 { LeapsBefore1900(y); }
    else if y < 2100 { LeapsBefore2100(y); }
    else { LeapsFrom2100(y); }
  }

  /** A receiver of group 4A reads the true day count of every date from 1 March 1900 to
      28 February 2100. */
  lemma DateDecodes(st: State, vcode: U4, t: Date, hour: int, min: int, localHour: int)
    requires IsDate(t) && 1900 <= MarchYear(t) < 2100 && 0 <= hour < 24 && 0 <= min < 60
    ensures ReadDay(Build4A(st, vcode, Tm(min, hour, t.d, t.m - 1, t.y - 1900), localHour).msg) == DayCount(t)
  {
    ClockGroupDecodes(st, vcode, Tm(min, hour, t.d, t.m - 1, t.y - 1900), localHour);
    FormulaIsExactIff(t);
    YearTerm(MarchYear(t) - 1900);
    MonthTerm(if t.m <= 2 then t.m + 12 else t.m);
  }
}
