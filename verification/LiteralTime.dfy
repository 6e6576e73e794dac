/** Literal times: the civil calendar in 32-bit arithmetic, and epoch seconds. */
module LiteralTime {
  import opened Basics
  import opened Digits
  import opened Time
  import opened TimeWindows

  newtype i32 = x: int | -0x8000_0000 <= x < 0x8000_0000

  // ----- The calendar -----

  predicate IsLeapYear(year: int) {
    (year % 4 == 0 && year % 100 != 0) || year % 400 == 0
  }

  function DaysInMonth(year: int, month: nat): nat {
    match month
    case 1 | 3 | 5 | 7 | 8 | 10 | 12 => 31
    case 4 | 6 | 9 | 11 => 30
    case 2 => if IsLeapYear(year) then 29 else 28
    case _ => 0
  }

  datatype Date = Date(year: int, month: nat, day: nat)

  /** ensure_valid_date accepts d. */
  predicate ValidDate(d: Date) {
    1 <= d.month <= 12 && d.day != 0 && d.day <= DaysInMonth(d.year, d.month)
  }

  function NextDate(d: Date): Date {
    if d.day < DaysInMonth(d.year, d.month) then Date(d.year, d.month, d.day + 1)
    else if d.month < 12 then Date(d.year, d.month + 1, 1)
    else Date(d.year + 1, 1, 1)
  }

  predicate Earlier(a: Date, b: Date) {
    a.year < b.year || (a.year == b.year && (a.month < b.month || (a.month == b.month && a.day < b.day)))
  }

  // ----- Days since the epoch -----

  /** Division as the source's machine does it: toward zero. */
  function Truncated(a: i32, b: i32): i32
    requires b > 1 && a > -0x8000_0000
  {
    if a >= 0 then a / b else -((-a) / b)
  }

  /** The number of the day on which the year that starts in March of y begins. */
  function YearStart(y: int): int {
    365 * y + y / 4 - y / 100 + y / 400
  }

  function MarchYear(d: Date): int {
    if d.month <= 2 then d.year - 1 else d.year
  }

  function MarchMonth(d: Date): int {
    if d.month > 2 then d.month - 3 else d.month + 9
  }

  /** Days before the month, counted from March. */
  function MonthStart(m: int): int {
    (153 * m + 2) / 5
  }

  function Days(d: Date): int {
    YearStart(MarchYear(d)) + MonthStart(MarchMonth(d)) + d.day - 1 - 719468
  }

  /** The formula of the source, step by step in 32 bits: within five million
      years of year zero no step overflows. */
  method DaysFromCivil(year: i32, month: i32, day: i32) returns (days: int)
    requires -5_000_000 <= year <= 5_000_000 && 1 <= month <= 12 && 1 <= day <= 31
    ensures days == Days(Date(year as int, month as nat, day as nat))
  {
    hide YearStart;
    var adjustedYear := year - if month <= 2 then 1 else 0;
    var era := Truncated(if adjustedYear >= 0 then adjustedYear else adjustedYear - 399, 400);
    assert era as int == adjustedYear as int / 400;
    var yearOfEra := adjustedYear - era * 400;
    var shiftedMonth := month + if month > 2 then -3 else 9;
    var dayOfYear := (153 * shiftedMonth + 2) / 5 + day - 1;
    var dayOfEra := yearOfEra * 365 + yearOfEra / 4 - yearOfEra / 100 + dayOfYear;
    EraSplit(adjustedYear as int, era as int, yearOfEra as int);
    days := (era * 146_097 + dayOfEra - 719_468) as int;
  }

  /** An era of four hundred years has 146097 days. */
  lemma EraSplit(y: int, era: int, yearOfEra: int)
    requires y == era * 400 + yearOfEra && 0 <= yearOfEra < 400
    ensures YearStart(y) == era * 146097 + yearOfEra * 365 + yearOfEra / 4 - yearOfEra / 100
  {
    assert y / 4 == era * 100 + yearOfEra / 4;
    assert y / 100 == era * 4 + yearOfEra / 100;
    assert y / 400 == era;
  }

  lemma EpochIsZero()
    ensures Days(Date(1970, 1, 1)) == 0
  {
  }

  lemma YearLength(y: int)
    ensures YearStart(y + 1) - YearStart(y) == 365 + if IsLeapYear(y + 1) then 1 else 0
  {
    assert (y + 1) / 4 - y / 4 == if (y + 1) % 4 == 0 then 1 else 0;
    assert (y + 1) / 100 - y / 100 == if (y + 1) % 100 == 0 then 1 else 0;
    assert (y + 1) / 400 - y / 400 == if (y + 1) % 400 == 0 then 1 else 0;
    assert (y + 1) % 400 == 0 ==> (y + 1) % 100 == 0 && (y + 1) % 4 == 0;
    assert (y + 1) % 100 == 0 ==> (y + 1) % 4 == 0;
  }

  lemma MonthLength(d: Date)
    requires 1 <= d.month <= 12 && d.month != 2
    ensures MonthStart(MarchMonth(d) + 1) == MonthStart(MarchMonth(d)) + DaysInMonth(d.year, d.month)
  {
  }

  /** The next day has the next number, across the ends of months, leap days,
      and the turns of years and centuries, before and after year zero. */
  lemma NextDayIsNextNumber(d: Date)
    requires ValidDate(d)
    ensures ValidDate(NextDate(d)) && Days(NextDate(d)) == Days(d) + 1
  {
    if d.day < DaysInMonth(d.year, d.month) {
      NextInMonth(d);
    } else if d.month == 2 {
      AfterFebruary(d);
    } else {
      AfterMonth(d);
    }
  }

  lemma NextInMonth(d: Date)
    requires ValidDate(d) && d.day < DaysInMonth(d.year, d.month)
    ensures ValidDate(NextDate(d)) && Days(NextDate(d)) == Days(d) + 1
  {
    hide YearStart, MonthStart, DaysInMonth;
  }

  lemma AfterFebruary(d: Date)
    requires d.month == 2 && d.day == DaysInMonth(d.year, 2)
    ensures ValidDate(NextDate(d)) && Days(NextDate(d)) == Days(d) + 1
  {
    FirstIsValid(Date(d.year, 3, 1));
    hide YearStart, MonthStart, DaysInMonth, ValidDate;
    YearLength(d.year - 1);
    FebruaryEnds(d);
  }

  lemma AfterMonth(d: Date)
    requires 1 <= d.month <= 12 && d.month != 2 && d.day == DaysInMonth(d.year, d.month)
    ensures ValidDate(NextDate(d)) && Days(NextDate(d)) == Days(d) + 1
  {
    FirstIsValid(NextDate(d));
    hide YearStart, MonthStart, DaysInMonth, ValidDate;
    MonthLength(d);
  }

  lemma FirstIsValid(d: Date)
    requires 1 <= d.month <= 12 && d.day == 1
    ensures ValidDate(d)
  {
  }

  lemma FebruaryEnds(d: Date)
    requires d.month == 2
    ensures MonthStart(11) == 337 && MonthStart(0) == 0
    ensures DaysInMonth(d.year, 2) == 28 + if IsLeapYear(d.year) then 1 else 0
  {
  }

  /** Every day of a March year lies before the next one begins. */
  lemma WithinYear(d: Date)
    requires ValidDate(d)
    ensures 0 <= MonthStart(MarchMonth(d)) + d.day - 1
    ensures YearStart(MarchYear(d)) + MonthStart(MarchMonth(d)) + d.day - 1 < YearStart(MarchYear(d) + 1)
  {
    hide YearStart;
    YearLength(MarchYear(d));
  }

  lemma {:induction false} YearsGrow(y: int, z: int)
    requires y <= z
    ensures YearStart(y) <= YearStart(z)
    decreases z - y
  {
    if y < z {
      YearsGrow(y, z - 1);
      YearLength(z - 1);
    }
  }

  lemma MonthsGrow(a: Date, b: Date)
    requires ValidDate(a) && ValidDate(b) && MarchYear(a) == MarchYear(b) && MarchMonth(a) < MarchMonth(b)
    ensures MonthStart(MarchMonth(a)) + a.day <= MonthStart(MarchMonth(b))
  {
    hide YearStart;
  }

  /** Earlier dates have smaller numbers. */
  lemma DaysAreMonotone(a: Date, b: Date)
    requires ValidDate(a) && ValidDate(b) && Earlier(a, b)
    ensures Days(a) < Days(b)
  {
    hide YearStart, MonthStart, DaysInMonth;
    if MarchYear(a) < MarchYear(b) {
      WithinYear(a);
      WithinYear(b);
      YearsGrow(MarchYear(a) + 1, MarchYear(b));
    } else if MarchMonth(a) < MarchMonth(b) {
      MonthsGrow(a, b);
    }
  }

  /** A day number belongs to one date only. */
  lemma DaysAreUnique(a: Date, b: Date)
    requires ValidDate(a) && ValidDate(b) && Days(a) == Days(b)
    ensures a == b
  {
    hide Days;
    if Earlier(a, b) { DaysAreMonotone(a, b); }
    if Earlier(b, a) { DaysAreMonotone(b, a); }
  }

  // ----- A date and a clock at a fixed offset -----

  datatype Clock = Clock(hour: nat, minute: nat, second: nat, nanos: nat)

  function FixedOffsetTimestamp(d: Date, c: Clock): Option<Timestamp> {
    if !ValidDate(d) || c.hour > 23 || c.minute > 59 || c.second > 59 then None
    else Some(Timestamp(Days(d) * 86400 + c.hour * 3600 + c.minute * 60 + c.second, c.nanos))
  }

  /** One second later on the wall clock. */
  function NextSecond(d: Date, c: Clock): (Date, Clock) {
    if c.second < 59 then (d, c.(second := c.second + 1))
    else if c.minute < 59 then (d, Clock(c.hour, c.minute + 1, 0, c.nanos))
    else if c.hour < 23 then (d, Clock(c.hour + 1, 0, 0, c.nanos))
    else (NextDate(d), Clock(0, 0, 0, c.nanos))
  }

  /** Midnight of 1970-01-01 is zero, and every second on the wall clock is one second
      more, across minutes, hours, days, months and years. */
  lemma SecondsAreCounted(d: Date, c: Clock)
    ensures FixedOffsetTimestamp(Date(1970, 1, 1), Clock(0, 0, 0, c.nanos)) == Some(Timestamp(0, c.nanos))
    ensures FixedOffsetTimestamp(d, c).Some? ==>
      var t, (d', c') := FixedOffsetTimestamp(d, c).value, NextSecond(d, c);
      FixedOffsetTimestamp(d', c') == Some(Timestamp(t.seconds + 1, t.nanos))
    ensures FixedOffsetTimestamp(d, c).None? <==> !ValidDate(d) || c.hour >= 24 || c.minute >= 60 || c.second >= 60
  {
    EpochIsZero();
    if ValidDate(d) { NextDayIsNextNumber(d); }
    hide Days, NextDate;
  }

  predicate EarlierClock(c: Clock, c': Clock) {
    c.hour < c'.hour || (c.hour == c'.hour && (c.minute < c'.minute || (c.minute == c'.minute &&
      (c.second < c'.second || (c.second == c'.second && c.nanos < c'.nanos)))))
  }

  /** Timestamps are in the order of the wall-clock times they stand for. */
  lemma TimestampsAreMonotone(a: Date, c: Clock, b: Date, c': Clock)
    requires FixedOffsetTimestamp(a, c).Some? && FixedOffsetTimestamp(b, c').Some?
    ensures Before(FixedOffsetTimestamp(a, c).value, FixedOffsetTimestamp(b, c').value)
       <==> Earlier(a, b) || (a == b && EarlierClock(c, c'))
  {
    hide Days;
    if Earlier(a, b) { DaysAreMonotone(a, b); }
    if Earlier(b, a) { DaysAreMonotone(b, a); }
  }

  // ----- Epoch seconds -----

  /** Zeros are pushed until there are n digits. */
  method Padded(ds: seq<Digit>, n: nat) returns (r: seq<Digit>)
    requires |ds| <= n
    ensures r == ds + Zeros(n - |ds|)
  {
    hide Zeros;
    r := ds;
    NoZeros();
    while |r| < n
      invariant |ds| <= |r| <= n && r == ds + Zeros(|r| - |ds|)
      decreases n - |r|
    {
      ZerosLast(|r| - |ds|);
      r := r + [0];
    }
  }

  /** The first nine decimals, padded with zeros. */
  method ParseFractionalNanos(raw: string) returns (r: Option<nat>)
    ensures r.Some? <==> AllDigits(raw)
    ensures r.Some? ==> r.value < NANOS && r.value == Rounded(Scaled(Value(DigitsOf(raw)), 9), Pow10(|raw|), Floor)
  {
    if !AllDigits(raw) { return None; }
    hide Value, Pow10, Scaled, Rounded, Zeros, DigitsOf, AllDigits;
    var all := DigitsOf(raw);
    var cut := if |raw| < 9 then |raw| else 9;
    var digits := Padded(all[..cut], 9);
    PaddedValue(all, cut, digits);
    r := Some(Value(digits));
  }

  lemma NoZeros()
    ensures Zeros(0) == []
  {
  }

  lemma ZerosLast(n: nat)
    ensures Zeros(n + 1) == Zeros(n) + [0]
  {
  }

  lemma PaddedValue(all: seq<Digit>, cut: nat, digits: seq<Digit>)
    requires cut == (if |all| < 9 then |all| else 9) && digits == all[..cut] + Zeros(9 - cut)
    ensures Value(digits) < NANOS && Value(digits) == Rounded(Scaled(Value(all), 9), Pow10(|all|), Floor)
  {
    hide Value, Scaled, Rounded, Pow10, Zeros;
    PowersOfTen();
    ValueBound(digits);
    if |all| <= 9 { FewPadded(all, digits); } else { ManyCut(all, digits); }
  }

  lemma FewPadded(all: seq<Digit>, digits: seq<Digit>)
    requires |all| <= 9 && digits == all[..|all|] + Zeros(9 - |all|)
    ensures Value(digits) == Rounded(Scaled(Value(all), 9), Pow10(|all|), Floor)
  {
    hide Value, Scaled, Rounded, Pow10, Zeros;
    assert all[..|all|] == all;
    ValueConcat(all, Zeros(9 - |all|));
    FewDecimals(Value(all), |all|, Floor);
  }

  lemma ManyCut(all: seq<Digit>, digits: seq<Digit>)
    requires |all| > 9 && digits == all[..9] + Zeros(0)
    ensures Value(digits) == Rounded(Scaled(Value(all), 9), Pow10(|all|), Floor)
  {
    hide Value, Scaled, Rounded, Pow10, Zeros;
    NoZeros();
    assert digits == all[..9];
    ManyDecimals(Value(all), |all|, Floor);
    SplitDigits(all, 9, Floor);
    NoShift(Value(all[..9]));
  }

  lemma NoShift(v: nat)
    ensures Scaled(v, 0) == v
  {
  }

  datatype Written = Written(negative: bool, whole: string, frac: string)

  function Body(raw: string): (bool, string) {
    if raw != [] && raw[0] == '+' then (false, raw[1..])
    else if raw != [] && raw[0] == '-' then (true, raw[1..])
    else (false, raw)
  }

  /** The sign, the digits before the dot and those after it, if raw is a decimal
      number with at least one digit on each side of a dot. */
  function EpochParts(raw: string): Option<Written> {
    var (negative, body) := Body(raw);
    var (whole, frac) := SplitOnce(body);
    if frac == Some("") || whole == [] || !AllDigits(whole) || (frac.Some? && !AllDigits(frac.value)) then None
    else Some(Written(negative, whole, if frac.Some? then frac.value else ""))
  }

  lemma PartsOfBody(raw: string, w: string, f: Option<string>, negative: bool, body: string)
    requires IsAmount(body, w, f) && Body(raw) == (negative, body)
    ensures EpochParts(raw) == Some(Written(negative, w, if f.Some? then f.value else ""))
  {
    hide AllDigits, SplitOnce, Body;
    DigitsHaveNoDot(w);
    SplitsAtDot(w, if f.Some? then f.value else "");
  }

  /** A minus sign makes the number negative; a plus sign may stand there. */
  lemma SignsMean(raw: string, w: string, f: Option<string>)
    requires IsAmount(raw, w, f)
    ensures var x := if f.Some? then f.value else "";
      && EpochParts(raw) == EpochParts("+" + raw) == Some(Written(false, w, x))
      && EpochParts("-" + raw) == Some(Written(true, w, x))
  {
    assert ("+" + raw)[1..] == raw && ("-" + raw)[1..] == raw && raw[0] == w[0] && '0' <= w[0] <= '9';
    hide EpochParts, IsAmount, AllDigits;
    PartsOfBody(raw, w, f, false, raw);
    PartsOfBody("+" + raw, w, f, false, raw);
    PartsOfBody("-" + raw, w, f, true, raw);
  }

  /** An instant before the epoch has its nanoseconds counted forward from the
      second below it. */
  method ParseEpochSeconds(raw: string) returns (r: Option<Timestamp>)
    ensures r.Some? <==> EpochParts(raw).Some? && Value(DigitsOf(EpochParts(raw).value.whole)) <= I64_MAX
    ensures r.Some? ==>
      var w := EpochParts(raw).value;
      var size := Value(DigitsOf(w.whole)) * NANOS + Rounded(Scaled(Value(DigitsOf(w.frac)), 9), Pow10(|w.frac|), Floor);
      Valid(r.value) && Instant(r.value) == if w.negative then -size else size
  {
    hide Value, Pow10, Scaled, Rounded, DigitsOf, SplitOnce;
    var (negative, body) := Body(raw);
    var (wholePart, fracPart) := SplitOnce(body);
    if fracPart == Some("") { return None; }
    if wholePart == [] || !AllDigits(wholePart) { return None; }
    var whole := ParseNonnegativeI64Digits(DigitsOf(wholePart));
    if whole.None? { return None; }
    var nanos := 0;
    if fracPart.Some? {
      var parsed := ParseFractionalNanos(fracPart.value);
      if parsed.None? { return None; }
      nanos := parsed.value;
    } else {
      NoFraction();
    }
    if !negative { return Some(Timestamp(whole.value, nanos)); }
    if nanos == 0 { return Some(Timestamp(-(whole.value as int), 0)); }
    r := Some(Timestamp(-(whole.value as int) - 1, NANOS - nanos));
  }

  lemma NoFraction()
    ensures Rounded(Scaled(Value(DigitsOf("")), 9), Pow10(0), Floor) == 0
  {
    assert DigitsOf("") == [];
  }
}
