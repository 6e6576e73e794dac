/** Which timestamps a relative time test accepts. */
module TimeWindows {
  import opened Basics
  import opened Digits
  import opened Time

  datatype Comparison = Exactly(amount: TimeAmount) | LessThan(amount: TimeAmount) | GreaterThan(amount: TimeAmount)

  datatype Unit = Minutes | Days

  datatype Shifts = Shifts(exact: int, less: int, greater: int)

  datatype Boundary = BeforeAll | At(timestamp: Timestamp) | AfterAll

  function Seconds(u: Unit): nat {
    if u.Minutes? then 60 else 86400
  }

  function RollingShifts(u: Unit): Shifts {
    if u.Minutes? then Shifts(1, 0, 0) else Shifts(0, 0, 1)
  }

  /** -daystart days with a fractional amount. */
  const DAYSTART_SHIFTS := Shifts(1, -1, 0)

  const USED_SHIFTS := Shifts(1, 0, 0)

  predicate InRange(seconds: int) {
    I64_MIN <= seconds <= I64_MAX
  }

  predicate Valid(t: Timestamp) {
    InRange(t.seconds) && 0 <= t.nanos < NANOS
  }

  predicate Before(a: Timestamp, b: Timestamp) {
    a.seconds < b.seconds || (a.seconds == b.seconds && a.nanos < b.nanos)
  }

  function ShiftByUnits(t: Timestamp, unit: nat, delta: int): Boundary {
    var shift := unit * delta;
    if !InRange(shift) then (if delta < 0 then AfterAll else BeforeAll)
    else if !InRange(t.seconds - shift) then (if shift < 0 then AfterAll else BeforeAll)
    else At(Timestamp(t.seconds - shift, t.nanos))
  }

  function ShiftByOffset(t: Timestamp, offset: QuantizedOffset): Boundary {
    match offset
    case Overflow => BeforeAll
    case Finite(o) =>
      var seconds := t.seconds - o.seconds;
      if !InRange(seconds) then BeforeAll
      else if t.nanos >= o.nanos then At(Timestamp(seconds, t.nanos - o.nanos))
      else if !InRange(seconds - 1) then BeforeAll
      else At(Timestamp(seconds - 1, t.nanos + NANOS - o.nanos))
  }

  function ThresholdBoundary(baseline: Timestamp, a: TimeAmount, unit: nat, adjustment: int, mode: RoundingMode): Boundary {
    var adjusted := ShiftByUnits(baseline, unit, adjustment);
    if adjusted.At? then ShiftByOffset(adjusted.timestamp, Quantized(a, unit, mode)) else adjusted
  }

  predicate GtBoundary(t: Timestamp, b: Boundary) {
    match b case BeforeAll => true case At(x) => Before(x, t) case AfterAll => false
  }

  predicate LtBoundary(t: Timestamp, b: Boundary) {
    match b case BeforeAll => false case At(x) => Before(t, x) case AfterAll => true
  }

  predicate LeBoundary(t: Timestamp, b: Boundary) {
    match b case BeforeAll => false case At(x) => !Before(x, t) case AfterAll => true
  }

  predicate MatchesTimeWindow(c: Comparison, baseline: Timestamp, actual: Timestamp, unit: nat, s: Shifts) {
    match c
    case Exactly(a) =>
      && LeBoundary(actual, ThresholdBoundary(baseline, a, unit, -s.exact, Ceil))
      && GtBoundary(actual, ThresholdBoundary(baseline, a, unit, 1 - s.exact, Floor))
    case LessThan(a) => GtBoundary(actual, ThresholdBoundary(baseline, a, unit, s.less, Ceil))
    case GreaterThan(a) => LtBoundary(actual, ThresholdBoundary(baseline, a, unit, s.greater, Floor))
  }

  /** The amount as a whole number of units, when it is one and fits. */
  function IntegralValue(a: TimeAmount): Option<nat> {
    if a.scale == 0 && a.digits != [] && Value(a.digits) <= I64_MAX then Some(Value(a.digits)) else None
  }

  predicate MatchesCalendarDays(c: Comparison, elapsed: int) {
    match IntegralValue(c.amount)
    case None => false
    case Some(n) =>
      if c.Exactly? then elapsed == n else if c.LessThan? then elapsed < n else elapsed > n
  }

  /** day: the local calendar day of a timestamp. */
  predicate MatchesRelative(c: Comparison, u: Unit, baseline: Timestamp, daystart: bool, day: Timestamp -> int, actual: Timestamp) {
    if daystart && u.Days? && IntegralValue(c.amount).Some? then MatchesCalendarDays(c, day(baseline) - day(actual))
    else MatchesTimeWindow(c, baseline, actual, Seconds(u), if daystart && u.Days? then DAYSTART_SHIFTS else RollingShifts(u))
  }

  /** -used: the days from ctime to atime; strict where equal times do not count. */
  predicate MatchesUsed(c: Comparison, atime: Timestamp, ctime: Timestamp, strict: bool) {
    !Before(atime, ctime) && !(strict && atime == ctime) && MatchesTimeWindow(c, atime, ctime, 86400, USED_SHIFTS)
  }

  // ----- Boundaries as instants -----

  function Instant(t: Timestamp): int {
    t.seconds * NANOS + t.nanos
  }

  /** Where the boundary lies if seconds are not limited to 64 bits. */
  function Ideal(baseline: Timestamp, a: TimeAmount, unit: nat, adjustment: int, mode: RoundingMode): int {
    Instant(baseline) - adjustment * unit * NANOS - Nanoseconds(a, unit, mode)
  }

  /** The saturated boundary compares like the ideal instant x. */
  ghost predicate ComparesLike(b: Boundary, x: int) {
    forall t: Timestamp :: Valid(t) ==>
      && (GtBoundary(t, b) <==> Instant(t) > x)
      && (LtBoundary(t, b) <==> Instant(t) < x)
      && (LeBoundary(t, b) <==> Instant(t) <= x)
  }

  lemma OffsetIsExact(t: Timestamp, a: TimeAmount, unit: nat, mode: RoundingMode)
    requires Valid(t) && Quantized(a, unit, mode).Finite?
    ensures ComparesLike(ShiftByOffset(t, Quantized(a, unit, mode)), Instant(t) - Nanoseconds(a, unit, mode))
  {
    hide Nanoseconds;
    var n := Nanoseconds(a, unit, mode);
    assert n == (n / NANOS) * NANOS + n % NANOS;
  }

  /** The step up by a unit leaves the 64-bit range. */
  predicate StepsOut(baseline: Timestamp, unit: nat, adjustment: int) {
    adjustment < 0 && baseline.seconds + unit > I64_MAX
  }

  /** The amount, rounded to nanoseconds, fits into 64-bit seconds. */
  predicate Fits(a: TimeAmount, unit: nat, mode: RoundingMode) {
    Quantized(a, unit, mode).Finite?
  }

  /** Saturation at the ends of the 64-bit range is harmless with two exceptions: a
      step up by a unit that leaves the range puts the boundary after everything,
      and an amount that does not fit puts it before everything. */
  lemma BoundaryIsExact(baseline: Timestamp, a: TimeAmount, unit: nat, adjustment: int, mode: RoundingMode)
    requires Valid(baseline) && unit <= 86400 && -1 <= adjustment <= 1
    ensures var b := ThresholdBoundary(baseline, a, unit, adjustment, mode);
      if StepsOut(baseline, unit, adjustment) then b == AfterAll
      else if !Fits(a, unit, mode) then b == BeforeAll
      else ComparesLike(b, Ideal(baseline, a, unit, adjustment, mode))
  {
    hide Nanoseconds, Quantized;
    var shift := unit * adjustment;
    assert shift == (if adjustment < 0 then 0 - unit else if adjustment == 0 then 0 else unit);
    var adjusted := ShiftByUnits(baseline, unit, adjustment);
    if adjusted.At? && Fits(a, unit, mode) {
      OffsetIsExact(adjusted.timestamp, a, unit, mode);
    } else if Fits(a, unit, mode) && !StepsOut(baseline, unit, adjustment) {
      BelowEverything(baseline, a, unit, adjustment, mode);
    }
  }

  lemma BelowEverything(baseline: Timestamp, a: TimeAmount, unit: nat, adjustment: int, mode: RoundingMode)
    requires Valid(baseline) && unit <= 86400 && adjustment == 1 && baseline.seconds - unit < I64_MIN
    ensures ComparesLike(BeforeAll, Ideal(baseline, a, unit, adjustment, mode))
  {
    hide Nanoseconds;
  }

  // ----- The windows -----

  /** The amount in nanoseconds is num / den. */
  function Num(a: TimeAmount, unit: nat): nat {
    Scaled(Value(a.digits) * unit, 9)
  }

  function Den(a: TimeAmount): (d: nat)
    ensures d > 0
  {
    Pow10(a.scale)
  }

  lemma FloorCompare(num: nat, den: nat, age: int)
    requires den > 0
    ensures age > Rounded(num, den, Floor) <==> age * den > num
  {
    var q := num / den;
    assert num == q * den + num % den;
    if age > q {
      MulAtMost(q + 1, age, den);
    } else {
      MulAtMost(age, q, den);
    }
  }

  lemma CeilCompare(num: nat, den: nat, age: int)
    requires den > 0
    ensures age < Rounded(num, den, Ceil) <==> age * den < num
  {
    var q := (num + den - 1) / den;
    assert num + den - 1 == q * den + (num + den - 1) % den;
    if age < q {
      MulAtMost(age, q - 1, den);
    } else {
      MulAtMost(q, age, den);
    }
  }

  lemma MulAtMost(x: int, y: int, d: nat)
    requires x <= y
    ensures x * d <= y * d
  {
    assert y * d == x * d + (y - x) * d;
  }

  function Age(baseline: Timestamp, actual: Timestamp): int {
    Instant(baseline) - Instant(actual)
  }

  /** Rounded up the amount is at most one more than rounded down. */
  lemma RoundingsAreClose(num: nat, den: nat)
    requires den > 0
    ensures Rounded(num, den, Floor) <= Rounded(num, den, Ceil) <= Rounded(num, den, Floor) + 1
  {
    var q, r := num / den, num % den;
    assert num == q * den + r;
    RoundedSplit(q, den, r, Ceil);
  }

  /** What fits rounded up fits rounded down. */
  lemma FitsDownward(a: TimeAmount, unit: nat)
    requires Fits(a, unit, Ceil)
    ensures Fits(a, unit, Floor)
  {
    RoundingsAreClose(Num(a, unit), Den(a));
    hide Rounded, Num, Scaled, Value, Pow10;
    var down, up := Nanoseconds(a, unit, Floor), Nanoseconds(a, unit, Ceil);
    assert down <= up;
  }

  lemma BothCompare(b: Boundary, x: int, t: Timestamp)
    requires ComparesLike(b, x) && Valid(t)
    ensures GtBoundary(t, b) <==> Instant(t) > x
    ensures LtBoundary(t, b) <==> Instant(t) < x
    ensures LeBoundary(t, b) <==> Instant(t) <= x
  {
  }

  /** Where the boundary lies, in ages. */
  lemma BoundaryInAges(baseline: Timestamp, actual: Timestamp, a: TimeAmount, unit: nat, adjustment: int, mode: RoundingMode)
    requires Valid(baseline) && Valid(actual) && unit <= 86400 && -1 <= adjustment <= 1
    ensures var b := ThresholdBoundary(baseline, a, unit, adjustment, mode);
      var age, edge := Age(baseline, actual), Rounded(Num(a, unit), Den(a), mode) + adjustment * unit * NANOS;
      var out, fits := StepsOut(baseline, unit, adjustment), Fits(a, unit, mode);
      && (GtBoundary(actual, b) <==> !out && (fits ==> age < edge))
      && (LtBoundary(actual, b) <==> out || (fits && age > edge))
      && (LeBoundary(actual, b) <==> out || (fits && age >= edge))
  {
    BoundaryIsExact(baseline, a, unit, adjustment, mode);
    var b, x := ThresholdBoundary(baseline, a, unit, adjustment, mode), Ideal(baseline, a, unit, adjustment, mode);
    hide ThresholdBoundary, Fits, StepsOut, ComparesLike, Rounded, Scaled, Value, Pow10;
    if !StepsOut(baseline, unit, adjustment) && Fits(a, unit, mode) {
      BothCompare(b, x, actual);
      hide GtBoundary, LtBoundary, LeBoundary;
    }
  }

  /** Rolling days.  With A the exact amount and U a day, in nanoseconds: -n
      accepts the ages below A, n those from ceil(A) up to but not including
      floor(A) + U, and +n those above A + U.  If A does not fit, -n accepts every
      age and the others none. */
  lemma DayWindows(c: Comparison, baseline: Timestamp, actual: Timestamp)
    requires Valid(baseline) && Valid(actual)
    ensures var age, num, den, u := Age(baseline, actual), Num(c.amount, 86400), Den(c.amount), 86400 * NANOS;
      MatchesTimeWindow(c, baseline, actual, 86400, RollingShifts(Days)) <==>
      match c
      case LessThan(a) => Fits(a, 86400, Ceil) ==> age * den < num
      case Exactly(a) => Fits(a, 86400, Ceil) && Rounded(num, den, Ceil) <= age < Rounded(num, den, Floor) + u
      case GreaterThan(a) => Fits(a, 86400, Floor) && (age - u) * den > num
  {
    var a, age, u := c.amount, Age(baseline, actual), 86400 * NANOS;
    BoundaryInAges(baseline, actual, a, 86400, 0, Ceil);
    BoundaryInAges(baseline, actual, a, 86400, 1, Floor);
    if Fits(a, 86400, Ceil) { FitsDownward(a, 86400); }
    CeilCompare(Num(a, 86400), Den(a), age);
    FloorCompare(Num(a, 86400), Den(a), age - u);
    hide Fits, ThresholdBoundary, Rounded, Num, Den, GtBoundary, LtBoundary, LeBoundary, Age;
  }

  /** Rolling minutes, and the days of -used: the windows of n and +n lie one unit
      lower.  Near the end of the 64-bit range n has no lower end. */
  lemma MinuteWindows(c: Comparison, baseline: Timestamp, actual: Timestamp, unit: nat)
    requires Valid(baseline) && Valid(actual) && 0 < unit <= 86400
    ensures var age, num, den, u := Age(baseline, actual), Num(c.amount, unit), Den(c.amount), unit * NANOS;
      MatchesTimeWindow(c, baseline, actual, unit, USED_SHIFTS) <==>
      match c
      case LessThan(a) => Fits(a, unit, Ceil) ==> age * den < num
      case Exactly(a) =>
        && (StepsOut(baseline, unit, -1) || (Fits(a, unit, Ceil) && Rounded(num, den, Ceil) - u <= age))
        && (Fits(a, unit, Floor) ==> age < Rounded(num, den, Floor))
      case GreaterThan(a) => Fits(a, unit, Floor) && age * den > num
  {
    var a, age := c.amount, Age(baseline, actual);
    BoundaryInAges(baseline, actual, a, unit, 0, Ceil);
    BoundaryInAges(baseline, actual, a, unit, 0, Floor);
    BoundaryInAges(baseline, actual, a, unit, -1, Ceil);
    CeilCompare(Num(a, unit), Den(a), age);
    FloorCompare(Num(a, unit), Den(a), age);
    assert !StepsOut(baseline, unit, 0);
    hide Fits, ThresholdBoundary, Rounded, Num, Den, GtBoundary, LtBoundary, LeBoundary, Age, StepsOut;
  }

  /** -daystart days with a fractional amount: -n and n move down by a day, so
      that they meet below A, and +n starts above A.  Near the end of the 64-bit
      range -n accepts nothing and n has no lower end. */
  lemma DaystartWindows(c: Comparison, baseline: Timestamp, actual: Timestamp)
    requires Valid(baseline) && Valid(actual)
    ensures var age, num, den, u := Age(baseline, actual), Num(c.amount, 86400), Den(c.amount), 86400 * NANOS;
      MatchesTimeWindow(c, baseline, actual, 86400, DAYSTART_SHIFTS) <==>
      match c
      case LessThan(a) => !StepsOut(baseline, 86400, -1) && (Fits(a, 86400, Ceil) ==> (age + u) * den < num)
      case Exactly(a) =>
        && (StepsOut(baseline, 86400, -1) || (Fits(a, 86400, Ceil) && Rounded(num, den, Ceil) - u <= age))
        && (Fits(a, 86400, Floor) ==> age < Rounded(num, den, Floor))
      case GreaterThan(a) => Fits(a, 86400, Floor) && age * den > num
  {
    var a, age, u := c.amount, Age(baseline, actual), 86400 * NANOS;
    BoundaryInAges(baseline, actual, a, 86400, 0, Floor);
    BoundaryInAges(baseline, actual, a, 86400, -1, Ceil);
    CeilCompare(Num(a, 86400), Den(a), age + u);
    FloorCompare(Num(a, 86400), Den(a), age);
    assert !StepsOut(baseline, 86400, 0);
    hide Fits, ThresholdBoundary, Rounded, Num, Den, GtBoundary, LtBoundary, LeBoundary, Age, StepsOut;
  }

  /** -used counts whole days since the status change, never before it. */
  lemma UsedWindows(c: Comparison, atime: Timestamp, ctime: Timestamp, strict: bool)
    requires Valid(atime) && Valid(ctime)
    ensures var age, num, den, u := Age(atime, ctime), Num(c.amount, 86400), Den(c.amount), 86400 * NANOS;
      MatchesUsed(c, atime, ctime, strict) <==>
      && (if strict then age > 0 else age >= 0)
      && match c
         case LessThan(a) => Fits(a, 86400, Ceil) ==> age * den < num
         case Exactly(a) =>
           && (StepsOut(atime, 86400, -1) || (Fits(a, 86400, Ceil) && Rounded(num, den, Ceil) - u <= age))
           && (Fits(a, 86400, Floor) ==> age < Rounded(num, den, Floor))
         case GreaterThan(a) => Fits(a, 86400, Floor) && age * den > num
  {
    MinuteWindows(c, atime, ctime, 86400);
    hide MatchesTimeWindow, Rounded, Num, Den, Fits, StepsOut;
  }

  // ----- How the three tests of one amount lie to each other -----

  /** Rolling days: n excludes the other two.  -n and +n meet only where the amount
      fits rounded down but not rounded up.  The only age that no test accepts is
      floor(A) + U, for an amount that fits. */
  lemma DaysPartition(a: TimeAmount, baseline: Timestamp, actual: Timestamp)
    requires Valid(baseline) && Valid(actual)
    ensures var less := MatchesTimeWindow(LessThan(a), baseline, actual, 86400, RollingShifts(Days));
      var exact := MatchesTimeWindow(Exactly(a), baseline, actual, 86400, RollingShifts(Days));
      var greater := MatchesTimeWindow(GreaterThan(a), baseline, actual, 86400, RollingShifts(Days));
      var age, num, den, u := Age(baseline, actual), Num(a, 86400), Den(a), 86400 * NANOS;
      && !(less && exact) && !(exact && greater)
      && (less && greater <==> !Fits(a, 86400, Ceil) && Fits(a, 86400, Floor) && (age - u) * den > num)
      && (!less && !exact && !greater <==> Fits(a, 86400, Ceil) && age == Rounded(num, den, Floor) + u)
  {
    var age, num, den, u := Age(baseline, actual), Num(a, 86400), Den(a), 86400 * NANOS;
    DayWindows(LessThan(a), baseline, actual);
    DayWindows(Exactly(a), baseline, actual);
    DayWindows(GreaterThan(a), baseline, actual);
    RoundingsAreClose(num, den);
    if Fits(a, 86400, Ceil) { FitsDownward(a, 86400); }
    CeilCompare(num, den, age);
    FloorCompare(num, den, age - u);
    hide MatchesTimeWindow, Rounded, Num, Age, Fits;
  }

  /** A file that is exactly two days old is matched by none of -1, 1 and +1. */
  lemma TwoDaysOldIsMissed()
    ensures var a, baseline, actual := TimeAmount([1], 0), Timestamp(172800, 0), Timestamp(0, 0);
      && !MatchesTimeWindow(LessThan(a), baseline, actual, 86400, RollingShifts(Days))
      && !MatchesTimeWindow(Exactly(a), baseline, actual, 86400, RollingShifts(Days))
      && !MatchesTimeWindow(GreaterThan(a), baseline, actual, 86400, RollingShifts(Days))
  {
    var a, baseline, actual := TimeAmount([1], 0), Timestamp(172800, 0), Timestamp(0, 0);
    assert Value([1]) == 1 by { assert [1][..0] == []; }
    Powers(86400);
    assert Num(a, 86400) == 86400 * NANOS && Den(a) == 1;
    DaysPartition(a, baseline, actual);
  }

  /** With -daystart and a whole number of days that fits, exactly one of the three
      tests accepts.  For other amounts n excludes the other two, and -n and +n meet
      only where the amount fits rounded down but not rounded up. */
  lemma DaystartPartition(a: TimeAmount, baseline: Timestamp, day: Timestamp -> int, actual: Timestamp)
    requires Valid(baseline) && Valid(actual)
    ensures var less := MatchesRelative(LessThan(a), Days, baseline, true, day, actual);
      var exact := MatchesRelative(Exactly(a), Days, baseline, true, day, actual);
      var greater := MatchesRelative(GreaterThan(a), Days, baseline, true, day, actual);
      && !(less && exact) && !(exact && greater)
      && (IntegralValue(a).Some? ==> (less || exact || greater) && !(less && greater))
      && (IntegralValue(a).None? ==> (less && greater <==>
            !StepsOut(baseline, 86400, -1) && !Fits(a, 86400, Ceil) && Fits(a, 86400, Floor)
            && Age(baseline, actual) * Den(a) > Num(a, 86400)))
  {
    if IntegralValue(a).None? {
      var age, num, den, u := Age(baseline, actual), Num(a, 86400), Den(a), 86400 * NANOS;
      DaystartWindows(LessThan(a), baseline, actual);
      DaystartWindows(Exactly(a), baseline, actual);
      DaystartWindows(GreaterThan(a), baseline, actual);
      if Fits(a, 86400, Ceil) { FitsDownward(a, 86400); }
      CeilCompare(num, den, age + u);
      FloorCompare(num, den, age);
      RoundingsAreClose(num, den);
      hide MatchesTimeWindow, Rounded, Num, Age, Fits, StepsOut;
    }
  }

  /** Which window decides: minutes never look at -daystart, and days count calendar days
      only under -daystart and for whole amounts that fit. */
  lemma RelativeIsWindow(c: Comparison, baseline: Timestamp, daystart: bool, day: Timestamp -> int, actual: Timestamp)
    ensures MatchesRelative(c, Minutes, baseline, daystart, day, actual)
       <==> MatchesTimeWindow(c, baseline, actual, 60, USED_SHIFTS)
    ensures MatchesRelative(c, Days, baseline, false, day, actual)
       <==> MatchesTimeWindow(c, baseline, actual, 86400, RollingShifts(Days))
    ensures c.amount.scale > 0 || c.amount.digits == [] || Value(c.amount.digits) > I64_MAX ==>
       (MatchesRelative(c, Days, baseline, true, day, actual) <==> MatchesTimeWindow(c, baseline, actual, 86400, DAYSTART_SHIFTS))
  {
    hide MatchesTimeWindow, Value;
  }

  /** Whole days under -daystart: n accepts the files of the day that lies n days back.
      What -n accepts it accepts of all later days too, and what +n accepts of all earlier
      ones; neither accepts the day itself. */
  lemma DaystartIsOrdered(a: TimeAmount, baseline: Timestamp, day: Timestamp -> int, older: Timestamp, younger: Timestamp)
    requires a.scale == 0 && a.digits != [] && Value(a.digits) <= I64_MAX && day(older) <= day(younger)
    ensures MatchesRelative(Exactly(a), Days, baseline, true, day, older) <==> day(older) + Value(a.digits) == day(baseline)
    ensures MatchesRelative(LessThan(a), Days, baseline, true, day, older)
        ==> MatchesRelative(LessThan(a), Days, baseline, true, day, younger)
    ensures MatchesRelative(GreaterThan(a), Days, baseline, true, day, younger)
        ==> MatchesRelative(GreaterThan(a), Days, baseline, true, day, older)
    ensures day(older) + Value(a.digits) == day(baseline) && day(younger) > day(older)
        ==> MatchesRelative(LessThan(a), Days, baseline, true, day, younger)
    ensures day(younger) + Value(a.digits) == day(baseline) && day(younger) > day(older)
        ==> MatchesRelative(GreaterThan(a), Days, baseline, true, day, older)
  {
    hide Value;
  }

  /** Minutes: what n accepts -n accepts too. */
  lemma ExactMinuteIsLess(a: TimeAmount, baseline: Timestamp, actual: Timestamp)
    requires Valid(baseline) && Valid(actual)
    requires MatchesTimeWindow(Exactly(a), baseline, actual, 60, RollingShifts(Minutes))
    ensures MatchesTimeWindow(LessThan(a), baseline, actual, 60, RollingShifts(Minutes))
  {
    var age, num, den := Age(baseline, actual), Num(a, 60), Den(a);
    MinuteWindows(Exactly(a), baseline, actual, 60);
    MinuteWindows(LessThan(a), baseline, actual, 60);
    if Fits(a, 60, Ceil) { FitsDownward(a, 60); }
    CeilCompare(num, den, age);
    RoundingsAreClose(num, den);
    hide MatchesTimeWindow, Rounded, Num, Age, Fits, StepsOut;
  }

  // ----- When the tests are right about every timestamp -----

  /** The largest age two timestamps can have. */
  const MAX_AGE: int := (I64_MAX - I64_MIN) * NANOS + NANOS - 1

  function AtInstant(i: int): (t: Timestamp)
    ensures Instant(t) == i && 0 <= t.nanos < NANOS
    ensures I64_MIN * NANOS <= i < (I64_MAX + 1) * NANOS ==> Valid(t)
  {
    Timestamp(i / NANOS, i % NANOS)
  }

  /** A pair of timestamps of that age, as high as can be. */
  lemma HasAge(age: nat) returns (baseline: Timestamp, actual: Timestamp)
    requires age <= MAX_AGE
    ensures Valid(baseline) && Valid(actual) && Age(baseline, actual) == age
  {
    baseline := Timestamp(I64_MAX, NANOS - 1);
    actual := AtInstant(Instant(baseline) - age);
  }

  lemma AgesAreBounded(baseline: Timestamp, actual: Timestamp)
    requires Valid(baseline) && Valid(actual)
    ensures -MAX_AGE <= Age(baseline, actual) <= MAX_AGE
    ensures !StepsOut(baseline, 60, -1) ==> Age(baseline, actual) <= MAX_AGE - 60 * NANOS
  {
  }

  ghost predicate LessIsRight(a: TimeAmount, u: Unit, baseline: Timestamp, actual: Timestamp) {
    MatchesTimeWindow(LessThan(a), baseline, actual, Seconds(u), RollingShifts(u))
    <==> Age(baseline, actual) * Den(a) < Num(a, Seconds(u))
  }

  ghost predicate ExactIsRight(a: TimeAmount, u: Unit, baseline: Timestamp, actual: Timestamp) {
    var age, num, den := Age(baseline, actual), Num(a, Seconds(u)), Den(a);
    var low, high := Rounded(num, den, Ceil), Rounded(num, den, Floor);
    MatchesTimeWindow(Exactly(a), baseline, actual, Seconds(u), RollingShifts(u))
    <==> if u.Days? then low <= age < high + 86400 * NANOS else low - 60 * NANOS <= age < high
  }

  ghost predicate GreaterIsRight(a: TimeAmount, u: Unit, baseline: Timestamp, actual: Timestamp) {
    MatchesTimeWindow(GreaterThan(a), baseline, actual, Seconds(u), RollingShifts(u))
    <==> (Age(baseline, actual) - Above(u)) * Den(a) > Num(a, Seconds(u))
  }

  /** +n days starts a day above the amount, +n minutes at the amount. */
  function Above(u: Unit): nat {
    if u.Days? then 86400 * NANOS else 0
  }

  /** -n is right about every pair of timestamps if and only if the amount fits or
      exceeds every age. */
  lemma WhenLessIsRight(a: TimeAmount, u: Unit)
    ensures (forall b, t :: Valid(b) && Valid(t) ==> LessIsRight(a, u, b, t))
       <==> Fits(a, Seconds(u), Ceil) || MAX_AGE * Den(a) < Num(a, Seconds(u))
  {
    hide MatchesTimeWindow, Num, Den, Fits;
    var num, den := Num(a, Seconds(u)), Den(a);
    forall b, t | Valid(b) && Valid(t)
      ensures LessIsRight(a, u, b, t) <==> Fits(a, Seconds(u), Ceil) || Age(b, t) * den < num
    {
      if u.Days? { DayWindows(LessThan(a), b, t); } else { MinuteWindows(LessThan(a), b, t, 60); }
    }
    if !Fits(a, Seconds(u), Ceil) {
      if MAX_AGE * den < num {
        forall b, t | Valid(b) && Valid(t) ensures LessIsRight(a, u, b, t) {
          AgesAreBounded(b, t);
          MulAtMost(Age(b, t), MAX_AGE, den);
        }
      } else {
        var b, t := HasAge(MAX_AGE);
        assert !LessIsRight(a, u, b, t);
      }
    }
  }

  /** +n is right about every pair of timestamps if and only if the amount fits or
      reaches every age. */
  lemma WhenGreaterIsRight(a: TimeAmount, u: Unit)
    ensures (forall b, t :: Valid(b) && Valid(t) ==> GreaterIsRight(a, u, b, t))
       <==> Fits(a, Seconds(u), Floor) || (MAX_AGE - Above(u)) * Den(a) <= Num(a, Seconds(u))
  {
    hide MatchesTimeWindow, Num, Den, Fits;
    var num, den := Num(a, Seconds(u)), Den(a);
    forall b, t | Valid(b) && Valid(t)
      ensures GreaterIsRight(a, u, b, t) <==> Fits(a, Seconds(u), Floor) || (Age(b, t) - Above(u)) * den <= num
    {
      if u.Days? { DayWindows(GreaterThan(a), b, t); } else { MinuteWindows(GreaterThan(a), b, t, 60); }
    }
    if !Fits(a, Seconds(u), Floor) {
      if (MAX_AGE - Above(u)) * den <= num {
        forall b, t | Valid(b) && Valid(t) ensures GreaterIsRight(a, u, b, t) {
          AgesAreBounded(b, t);
          MulAtMost(Age(b, t) - Above(u), MAX_AGE - Above(u), den);
        }
      } else {
        var b, t := HasAge(MAX_AGE);
        assert !GreaterIsRight(a, u, b, t);
      }
    }
  }

  /** n days is right about every pair of timestamps if and only if the amount fits
      or exceeds every age. */
  lemma WhenExactDayIsRight(a: TimeAmount)
    ensures (forall b, t :: Valid(b) && Valid(t) ==> ExactIsRight(a, Days, b, t))
       <==> Fits(a, 86400, Ceil) || Rounded(Num(a, 86400), Den(a), Ceil) > MAX_AGE
  {
    hide MatchesTimeWindow, Num, Den, Fits, Rounded;
    var low, high := Rounded(Num(a, 86400), Den(a), Ceil), Rounded(Num(a, 86400), Den(a), Floor);
    RoundingsAreClose(Num(a, 86400), Den(a));
    forall b, t | Valid(b) && Valid(t)
      ensures ExactIsRight(a, Days, b, t) <==> Fits(a, 86400, Ceil) || !(low <= Age(b, t) < high + 86400 * NANOS)
    {
      DayWindows(Exactly(a), b, t);
    }
    if !Fits(a, 86400, Ceil) {
      if low > MAX_AGE {
        forall b, t | Valid(b) && Valid(t) ensures ExactIsRight(a, Days, b, t) { AgesAreBounded(b, t); }
      } else {
        var b, t := HasAge(low);
        assert !ExactIsRight(a, Days, b, t);
      }
    }
  }

  /** n minutes: away from the end of the 64-bit range the same; at the end it is
      wrong about every amount of more than a nanosecond. */
  lemma WhenExactMinuteIsRight(a: TimeAmount)
    ensures (forall b, t :: Valid(b) && Valid(t) && !StepsOut(b, 60, -1) ==> ExactIsRight(a, Minutes, b, t))
       <==> Fits(a, 60, Ceil) || Rounded(Num(a, 60), Den(a), Ceil) > MAX_AGE
    ensures (forall b, t :: Valid(b) && Valid(t) ==> ExactIsRight(a, Minutes, b, t))
       <==> Rounded(Num(a, 60), Den(a), Ceil) <= 1
  {
    hide MatchesTimeWindow, Num, Den, Rounded;
    var low, high := Rounded(Num(a, 60), Den(a), Ceil), Rounded(Num(a, 60), Den(a), Floor);
    RoundingsAreClose(Num(a, 60), Den(a));
    assert Fits(a, 60, Ceil) ==> Fits(a, 60, Floor) by { if Fits(a, 60, Ceil) { FitsDownward(a, 60); } }
    assert low <= 1 ==> Fits(a, 60, Ceil) by { SmallFits(a, 60); }
    hide Fits;
    forall b, t | Valid(b) && Valid(t)
      ensures ExactIsRight(a, Minutes, b, t) <==>
        ((StepsOut(b, 60, -1) || (Fits(a, 60, Ceil) && low - 60 * NANOS <= Age(b, t))) && (Fits(a, 60, Floor) ==> Age(b, t) < high)
        <==> low - 60 * NANOS <= Age(b, t) < high)
    {
      MinuteWindows(Exactly(a), b, t, 60);
    }
    forall b, t | Valid(b) && Valid(t) ensures Age(b, t) >= 1 - 60 * NANOS || !StepsOut(b, 60, -1) {}
    forall b, t | Valid(b) && Valid(t) && !StepsOut(b, 60, -1) ensures Age(b, t) <= MAX_AGE - 60 * NANOS { AgesAreBounded(b, t); }
    if !Fits(a, 60, Ceil) && low <= MAX_AGE {
      var b := Timestamp(I64_MAX - 60, NANOS - 1);
      var t := AtInstant(Instant(b) - (low - 60 * NANOS));
      assert Valid(t) && !ExactIsRight(a, Minutes, b, t);
    }
    if low > 1 {
      var b, t := Timestamp(I64_MAX - 59, 0), Timestamp(I64_MAX, NANOS - 1);
      assert Age(b, t) == 1 - 60 * NANOS;
      assert !ExactIsRight(a, Minutes, b, t);
    }
  }

  lemma SmallFits(a: TimeAmount, unit: nat)
    ensures Rounded(Num(a, unit), Den(a), Ceil) <= 1 ==> Fits(a, unit, Ceil)
  {
    hide Rounded;
  }

  /** 153722867280912931 minutes do not fit.  To a timestamp 2^64 - 1 seconds old
      -n answers yes although it is older, and +n no. */
  lemma HugeAmountIsWrong()
    ensures var a := TimeAmount(HUGE_DIGITS, 0);
      var baseline, actual := Timestamp(I64_MAX, 0), Timestamp(I64_MIN, 0);
      && Valid(baseline) && Valid(actual) && Age(baseline, actual) * Den(a) > Num(a, 60)
      && MatchesTimeWindow(LessThan(a), baseline, actual, 60, RollingShifts(Minutes))
      && !MatchesTimeWindow(GreaterThan(a), baseline, actual, 60, RollingShifts(Minutes))
  {
    var a := TimeAmount(HUGE_DIGITS, 0);
    var baseline, actual := Timestamp(I64_MAX, 0), Timestamp(I64_MIN, 0);
    HugeValue();
    Powers(153722867280912931 * 60);
    assert Den(a) == 1 && Num(a, 60) == 9223372036854775860 * NANOS;
    assert !Fits(a, 60, Ceil) && !Fits(a, 60, Floor);
    MinuteWindows(LessThan(a), baseline, actual, 60);
    MinuteWindows(GreaterThan(a), baseline, actual, 60);
    assert Age(baseline, actual) == 18446744073709551615 * NANOS;
  }

  const HUGE_DIGITS: seq<Digit> := [1, 5, 3, 7, 2, 2, 8, 6, 7, 2, 8, 0, 9, 1, 2, 9, 3, 1]

  const HUGE_HIGH: seq<Digit> := [1, 5, 3, 7, 2, 2]
  const HUGE_MIDDLE: seq<Digit> := [8, 6, 7, 2, 8, 0]
  const HUGE_LOW: seq<Digit> := [9, 1, 2, 9, 3, 1]

  lemma HugeParts()
    ensures HUGE_DIGITS == HUGE_HIGH + HUGE_MIDDLE + HUGE_LOW && |HUGE_MIDDLE| == 6 && |HUGE_LOW| == 6
    ensures Value(HUGE_HIGH) == 153722 && Value(HUGE_MIDDLE) == 867280 && Value(HUGE_LOW) == 912931
  {
    hide Value;
    Six(1, 5, 3, 7, 2, 2);
    Six(8, 6, 7, 2, 8, 0);
    Six(9, 1, 2, 9, 3, 1);
  }

  lemma HugeValue()
    ensures Value(HUGE_DIGITS) == 153722867280912931
  {
    hide Value, HUGE_DIGITS, HUGE_HIGH, HUGE_MIDDLE, HUGE_LOW;
    HugeParts();
    AppendSix(HUGE_HIGH, HUGE_MIDDLE);
    AppendSix(HUGE_HIGH + HUGE_MIDDLE, HUGE_LOW);
  }
}
