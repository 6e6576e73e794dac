/** Relative time tests: decimal amounts of any precision against timestamps of
    64-bit seconds and nanoseconds. */
module Time {
  import opened Basics
  import opened Digits

  datatype TimeAmount = TimeAmount(digits: seq<Digit>, scale: nat)

  // ----- Reading an amount -----

  predicate AllDigits(s: string) {
    forall i :: 0 <= i < |s| ==> '0' <= s[i] <= '9'
  }

  function DigitOf(c: char): (d: Digit)
    requires '0' <= c <= '9'
  {
    c as int - '0' as int
  }

  function DigitsOf(s: string): (ds: seq<Digit>)
    requires AllDigits(s)
    ensures |ds| == |s|
  {
    if s == [] then [] else DigitsOf(s[..|s| - 1]) + [DigitOf(s[|s| - 1])]
  }

  /** At the first dot. */
  function SplitOnce(raw: string): (string, Option<string>) {
    if raw == [] then ("", None)
    else if raw[0] == '.' then ("", Some(raw[1..]))
    else var (whole, frac) := SplitOnce(raw[1..]); ([raw[0]] + whole, frac)
  }

  predicate WellFormed(raw: string) {
    var (whole, frac) := SplitOnce(raw);
    whole != [] && AllDigits(whole) && (frac.Some? ==> frac.value != [] && AllDigits(frac.value))
  }

  /** The digits before and after the dot, and how many come after it. */
  function Written(raw: string): (seq<Digit>, nat)
    requires WellFormed(raw)
  {
    var (whole, frac) := SplitOnce(raw);
    match frac
    case None => (DigitsOf(whole), 0)
    case Some(f) => (DigitsOf(whole) + DigitsOf(f), |f|)
  }

  lemma {:induction false} SplitsAtDot(w: string, f: string)
    requires '.' !in w
    ensures SplitOnce(w) == (w, None) && SplitOnce(w + "." + f) == (w, Some(f))
  {
    if w == [] {
      assert (w + "." + f)[0] == '.' && (w + "." + f)[1..] == f;
    } else {
      SplitsAtDot(w[1..], f);
      assert (w + "." + f)[0] == w[0] && (w + "." + f)[1..] == w[1..] + "." + f;
      assert [w[0]] + w[1..] == w;
    }
  }

  lemma {:induction false} DotSplits(raw: string)
    ensures var (w, f) := SplitOnce(raw); '.' !in w && raw == if f.Some? then w + "." + f.value else w
  {
    if raw != [] && raw[0] != '.' {
      DotSplits(raw[1..]);
      var (w, f) := SplitOnce(raw[1..]);
      assert raw == [raw[0]] + raw[1..];
    } else if raw != [] {
      assert raw == "" + "." + raw[1..];
    }
  }

  lemma DigitsHaveNoDot(w: string)
    requires AllDigits(w)
    ensures '.' !in w
  {
  }

  /** raw is digits w, or digits w, a dot and digits f. */
  predicate IsAmount(raw: string, w: string, f: Option<string>) {
    && w != "" && AllDigits(w)
    && match f case None => raw == w case Some(x) => x != "" && AllDigits(x) && raw == w + "." + x
  }

  /** Digits, or digits with a dot between them, and nothing else. */
  lemma AmountsAsWritten(raw: string, w: string, f: Option<string>)
    ensures WellFormed(raw) <==> exists w: string, f: Option<string> :: IsAmount(raw, w, f)
    ensures IsAmount(raw, w, f) ==> WellFormed(raw)
    ensures IsAmount(raw, w, f) && f.None? ==> Written(raw) == (DigitsOf(w), 0)
    ensures IsAmount(raw, w, f) && f.Some? ==> Written(raw) == (DigitsOf(w) + DigitsOf(f.value), |f.value|)
  {
    hide SplitOnce, AllDigits;
    DotSplits(raw);
    if WellFormed(raw) {
      var (x, y) := SplitOnce(raw);
      assert IsAmount(raw, x, y);
    }
    forall x: string, y: Option<string> | IsAmount(raw, x, y) ensures SplitOnce(raw) == (x, y) {
      DigitsHaveNoDot(x);
      SplitsAtDot(x, if y.Some? then y.value else "");
    }
  }

  /** n as one writes it. */
  function Decimal(n: nat): string {
    if n < 10 then ["0123456789"[n]] else Decimal(n / 10) + ["0123456789"[n % 10]]
  }

  lemma DecimalSplits(n: nat)
    requires n >= 10
    ensures Decimal(n) == Decimal(n / 10) + ["0123456789"[n % 10]]
  {
  }

  lemma OneMoreDigit(s: string, d: nat)
    requires AllDigits(s) && d < 10
    ensures var t := s + ["0123456789"[d]]; AllDigits(t) && Value(DigitsOf(t)) == 10 * Value(DigitsOf(s)) + d
  {
    var t := s + ["0123456789"[d]];
    assert t[..|s|] == s;
    var ds := DigitsOf(t);
    assert ds == DigitsOf(s) + [d];
    assert ds[..|s|] == DigitsOf(s);
  }

  lemma {:induction false} DecimalsAreRead(n: nat)
    ensures Decimal(n) != "" && AllDigits(Decimal(n)) && Value(DigitsOf(Decimal(n))) == n
  {
    if n >= 10 {
      DecimalsAreRead(n / 10);
      hide Decimal;
      OneMoreDigit(if n < 10 then "" else Decimal(n / 10), n % 10);
      assert Decimal(n) == Decimal(n / 10) + ["0123456789"[n % 10]] by { DecimalSplits(n); }
    } else {
      assert DigitsOf("") == [] && Value([]) == 0;
      OneMoreDigit("", n);
      assert "" + ["0123456789"[n]] == Decimal(n);
    }
  }

  /** No zero that could be left out. */
  predicate Normal(a: TimeAmount) {
    && a.digits != []
    && (a.scale > 0 ==> a.digits[|a.digits| - 1] != 0)
    && (|a.digits| > 1 ==> a.digits[0] != 0)
  }

  lemma DropTrailingZero(ds: seq<Digit>, n: nat)
    requires ds != [] && ds[|ds| - 1] == 0
    ensures Scaled(Value(ds), n) == Scaled(Value(ds[..|ds| - 1]), n + 1)
  {
    ScaledShift(Value(ds[..|ds| - 1]), n);
  }

  lemma {:induction false} TrimmedIsNormal(ds: seq<Digit>)
    ensures |Trimmed(ds)| > 1 ==> Trimmed(ds)[0] != 0
    ensures ds != [] ==> Trimmed(ds)[|Trimmed(ds)| - 1] == ds[|ds| - 1]
    decreases |ds|
  {
    if |ds| > 1 && ds[0] == 0 { TrimmedIsNormal(ds[1..]); }
  }

  /** Reads digits with at most one dot.  The amount read is the amount written,
      in normal form; the number of decimals is kept in 32 bits, so that with 2^32
      of them or more the point moves. */
  method ParseAmount(raw: string) returns (r: Result<TimeAmount, ()>)
    ensures r.Ok? <==> WellFormed(raw)
    ensures r.Ok? ==>
      var (digits, decimals) := Written(raw);
      var kept := decimals % U32_LIMIT;
      && Normal(r.value) && r.value.scale <= kept
      && Value(digits) == Scaled(Value(r.value.digits), kept - r.value.scale)
  {
    var (whole, frac) := SplitOnce(raw);
    if whole == [] || !AllDigits(whole) { return Err(()); }
    if frac.Some? && (frac.value == [] || !AllDigits(frac.value)) { return Err(()); }
    var digits := DigitsOf(whole);
    var scale := if frac.Some? then |frac.value| % U32_LIMIT else 0;
    if frac.Some? { digits := digits + DigitsOf(frac.value); }
    ghost var all, kept := Written(raw).0, Written(raw).1 % U32_LIMIT;
    assert digits == all && |digits| > kept && scale == kept;
    assert Scaled(Value(all), 0) == Value(all);
    hide Value, Scaled, DigitsOf, SplitOnce;
    while scale > 0 && digits != [] && digits[|digits| - 1] == 0
      invariant 0 <= scale <= kept && |digits| > scale
      invariant Value(all) == Scaled(Value(digits), kept - scale)
      decreases scale
    {
      DropTrailingZero(digits, kept - scale);
      digits := digits[..|digits| - 1];
      scale := scale - 1;
    }
    TrimmedIsNormal(digits);
    digits := TrimLeadingZeroDigits(digits);
    r := Ok(TimeAmount(digits, scale));
  }

  // ----- Quantising to whole nanoseconds -----

  datatype Timestamp = Timestamp(seconds: int, nanos: int)

  datatype QuantizedOffset = Finite(offset: Timestamp) | Overflow

  /** amount * unit, in nanoseconds, rounded. */
  function Nanoseconds(a: TimeAmount, unit: nat, mode: RoundingMode): nat {
    Rounded(Scaled(Value(a.digits) * unit, 9), Pow10(a.scale), mode)
  }

  function Quantized(a: TimeAmount, unit: nat, mode: RoundingMode): QuantizedOffset {
    var n := Nanoseconds(a, unit, mode);
    if n / NANOS > I64_MAX then Overflow else Finite(Timestamp(n / NANOS, n % NANOS))
  }

  lemma MulGrows(a: nat, b: nat, d: nat)
    requires a <= b
    ensures a * d <= b * d
  {
    assert b * d == a * d + (b - a) * d;
  }

  lemma DivisionIs(x: nat, d: nat, q: nat, r: nat)
    requires x == q * d + r && r < d
    ensures x / d == q && x % d == r
  {
    var k := x / d;
    assert x == k * d + x % d;
    if k < q { MulGrows(k + 1, q, d); }
    if k > q { MulGrows(q + 1, k, d); }
  }

  lemma RoundedSplit(q: nat, d: nat, r: nat, mode: RoundingMode)
    requires r < d
    ensures Rounded(q * d + r, d, mode) == q + if mode == Ceil && r > 0 then 1 else 0
  {
    if mode == Floor {
      DivisionIs(q * d + r, d, q, r);
    } else if r == 0 {
      DivisionIs(q * d + d - 1, d, q, d - 1);
    } else {
      assert q * d + r + d - 1 == (q + 1) * d + (r - 1);
      DivisionIs(q * d + r + d - 1, d, q + 1, r - 1);
    }
  }

  /** A common factor does not matter. */
  lemma RoundedCancel(x: nat, d: nat, p: nat, mode: RoundingMode)
    requires d > 0 && p > 0
    ensures Rounded(x * p, d * p, mode) == Rounded(x, d, mode)
    ensures d * p > 0
  {
    var q, r := x / d, x % d;
    assert x == q * d + r;
    RoundedSplit(q, d, r, mode);
    assert d * p > 0;
    assert x * p == q * (d * p) + r * p by { Distribute(q, d, r, p); }
    assert r * p < d * p && (r > 0 <==> r * p > 0) by { Ordered(r, d, p); }
    RoundedSplit(q, d * p, r * p, mode);
  }

  lemma Distribute(q: nat, d: nat, r: nat, p: nat)
    ensures (q * d + r) * p == q * (d * p) + r * p
  {
  }

  lemma Ordered(r: nat, d: nat, p: nat)
    requires r < d && p > 0
    ensures r * p < d * p && (r > 0 <==> r * p > 0)
  {
    assert d * p == r * p + (d - r) * p;
    assert (d - r) * p > 0;
  }

  lemma FewDecimals(x: nat, scale: nat, mode: RoundingMode)
    requires scale <= 9
    ensures Rounded(Scaled(x, 9), Pow10(scale), mode) == Scaled(x, 9 - scale)
  {
    var p, q := Pow10(scale), Pow10(9 - scale);
    PowAdd(9 - scale, scale);
    assert Scaled(x, 9) == Scaled(x, 9 - scale) * p by { Associate(x, q, p); }
    hide Pow10, Scaled, Rounded;
    RoundedSplit(Scaled(x, 9 - scale), p, 0, mode);
  }

  lemma Associate(x: nat, q: nat, p: nat)
    ensures x * (q * p) == (x * q) * p
  {
  }

  lemma ManyDecimals(x: nat, scale: nat, mode: RoundingMode)
    requires scale > 9
    ensures Rounded(Scaled(x, 9), Pow10(scale), mode) == Rounded(x, Pow10(scale - 9), mode)
  {
    PowAdd(scale - 9, 9);
    RoundedCancel(x, Pow10(scale - 9), Pow10(9), mode);
  }

  lemma SplitDigits(ds: seq<Digit>, cut: nat, mode: RoundingMode)
    requires cut <= |ds|
    ensures Rounded(Value(ds), Pow10(|ds| - cut), mode)
         == Value(ds[..cut]) + if mode == Ceil && Value(ds[cut..]) > 0 then 1 else 0
  {
    hide Value, Rounded, Pow10;
    assert ds == ds[..cut] + ds[cut..];
    ValueConcat(ds[..cut], ds[cut..]);
    ValueBound(ds[cut..]);
    RoundedSplit(Value(ds[..cut]), Pow10(|ds| - cut), Value(ds[cut..]), mode);
  }

  lemma {:induction false} PowGrows(a: nat, b: nat)
    requires a <= b
    ensures Pow10(a) <= Pow10(b)
  {
    if a < b { PowGrows(a, b - 1); }
  }

  /** Nothing is left above the point. */
  lemma AllBelowPoint(ds: seq<Digit>, truncated: nat, mode: RoundingMode)
    requires truncated >= |ds|
    ensures Rounded(Value(ds), Pow10(truncated), mode) == if mode == Ceil && Value(ds) > 0 then 1 else 0
  {
    ValueBound(ds);
    PowGrows(|ds|, truncated);
    RoundedSplit(0, Pow10(truncated), Value(ds), mode);
  }

  method QuantizedNanosecondsDigits(ds: seq<Digit>, scale: nat, mode: RoundingMode) returns (r: seq<Digit>)
    requires ds != []
    ensures r != [] && Value(r) == Rounded(Scaled(Value(ds), 9), Pow10(scale), mode)
  {
    hide Value, Scaled, Pow10, Rounded;
    if scale <= 9 {
      FewDecimals(Value(ds), scale, mode);
      ValueConcat(ds, Zeros(9 - scale));
      return Trimmed(ds + Zeros(9 - scale));
    }
    ManyDecimals(Value(ds), scale, mode);
    var truncated := scale - 9;
    if truncated >= |ds| {
      AllBelowPoint(ds, truncated, mode);
      assert Value([0]) == 0 && Value([1]) == 1 by { SmallValues(); }
      var any := AnyNonzero(ds);
      return if mode == Ceil && any then [1] else [0];
    }
    var split := |ds| - truncated;
    SplitDigits(ds, split, mode);
    var remainderNonzero := AnyNonzero(ds[split..]);
    r := TrimLeadingZeroDigits(ds[..split]);
    if mode == Ceil && remainderNonzero {
      r := IncrementDecimalDigits(r);
    }
  }

  lemma SmallValues()
    ensures Value([0]) == 0 && Value([1]) == 1
  {
    ValuePush([], 0);
    ValuePush([], 1);
    assert [] + [0] == [0] && [] + [1] == [1];
  }

  // ----- Parsing 64-bit seconds -----

  /** Comparison of byte strings of one length. */
  predicate LexGreater(a: seq<Digit>, b: seq<Digit>)
    requires |a| == |b|
  {
    a != [] && (a[0] > b[0] || (a[0] == b[0] && LexGreater(a[1..], b[1..])))
  }

  lemma LeadDecides(x: Digit, y: Digit, p: nat, a: nat, b: nat)
    requires x > y && a < p && b < p
    ensures x * p + a > y * p + b
  {
    assert x * p == y * p + (x - y) * p;
    assert (x - y) * p >= p;
  }

  lemma {:induction false} LexIsNumeric(a: seq<Digit>, b: seq<Digit>)
    requires |a| == |b|
    ensures LexGreater(a, b) <==> Value(a) > Value(b)
  {
    if a != [] {
      hide Value;
      ValueFirst(a);
      ValueFirst(b);
      ValueBound(a[1..]);
      ValueBound(b[1..]);
      LexIsNumeric(a[1..], b[1..]);
      if a[0] > b[0] { LeadDecides(a[0], b[0], Pow10(|a| - 1), Value(a[1..]), Value(b[1..])); }
      if b[0] > a[0] { LeadDecides(b[0], a[0], Pow10(|a| - 1), Value(b[1..]), Value(a[1..])); }
    }
  }

  const MAX_DIGITS: seq<Digit> := [9, 2, 2, 3, 3, 7, 2, 0, 3, 6, 8, 5, 4, 7, 7, 5, 8, 0, 7]

  lemma Six(a: Digit, b: Digit, c: Digit, d: Digit, e: Digit, f: Digit)
    ensures Value([a, b, c, d, e, f]) == 100000 * a + 10000 * b + 1000 * c + 100 * d + 10 * e + f
  {
    hide Value;
    ValuePush([], a);
    ValuePush([a], b);
    ValuePush([a, b], c);
    ValuePush([a, b, c], d);
    ValuePush([a, b, c, d], e);
    ValuePush([a, b, c, d, e], f);
    assert [] + [a] == [a] && [a] + [b] == [a, b] && [a, b] + [c] == [a, b, c] && [a, b, c] + [d] == [a, b, c, d];
    assert [a, b, c, d] + [e] == [a, b, c, d, e] && [a, b, c, d, e] + [f] == [a, b, c, d, e, f];
    assert Value([]) == 0 by { ZeroValue([]); }
  }

  lemma PowersOfTen()
    ensures Pow10(1) == 10 && Pow10(6) == 1000000 && Pow10(9) == NANOS
    ensures Pow10(18) == 1000000000000000000 && Pow10(19) == 10000000000000000000
  {
    assert Pow10(3) == 1000;
    PowAdd(3, 3);
    PowAdd(6, 3);
    PowAdd(9, 9);
    PowAdd(18, 1);
  }

  lemma Powers(v: nat)
    ensures Scaled(v, 6) == v * 1000000 && Scaled(v, 9) == v * NANOS
  {
    PowersOfTen();
  }

  lemma AppendSix(a: seq<Digit>, b: seq<Digit>)
    requires |b| == 6
    ensures Value(a + b) == Value(a) * 1000000 + Value(b)
  {
    hide Value;
    ValueConcat(a, b);
    Powers(Value(a));
  }

  const MAX_HIGH: seq<Digit> := [9, 2, 2, 3, 3, 7]
  const MAX_MIDDLE: seq<Digit> := [2, 0, 3, 6, 8, 5]
  const MAX_LOW: seq<Digit> := [4, 7, 7, 5, 8, 0]

  lemma MaxParts()
    ensures MAX_DIGITS == MAX_HIGH + MAX_MIDDLE + MAX_LOW + [7]
    ensures Value(MAX_HIGH) == 922337 && Value(MAX_MIDDLE) == 203685 && Value(MAX_LOW) == 477580
  {
    hide Value;
    Six(9, 2, 2, 3, 3, 7);
    Six(2, 0, 3, 6, 8, 5);
    Six(4, 7, 7, 5, 8, 0);
  }

  lemma MaxValue()
    ensures Value(MAX_DIGITS) == I64_MAX
  {
    hide Value, MAX_DIGITS, MAX_HIGH, MAX_MIDDLE, MAX_LOW;
    MaxParts();
    SizesOfParts();
    AppendSix(MAX_HIGH, MAX_MIDDLE);
    AppendSix(MAX_HIGH + MAX_MIDDLE, MAX_LOW);
    ValuePush(MAX_HIGH + MAX_MIDDLE + MAX_LOW, 7);
  }

  lemma SizesOfParts()
    ensures |MAX_MIDDLE| == 6 && |MAX_LOW| == 6
  {
  }

  function NormalizedDigitSlice(ds: seq<Digit>): (r: seq<Digit>)
    ensures Value(r) == Value(ds)
    ensures |r| > 1 ==> r[0] != 0
  {
    TrimmedIsNormal(ds);
    Trimmed(ds)
  }

  lemma LeadingDigitCounts(ds: seq<Digit>)
    requires ds != [] && ds[0] != 0
    ensures Value(ds) >= Pow10(|ds| - 1)
  {
    hide Value, Pow10;
    ValueFirst(ds);
    MulGrows(1, ds[0], Pow10(|ds| - 1));
  }

  /** The digits as an i64, if they fit. */
  method ParseNonnegativeI64Digits(ds: seq<Digit>) returns (r: Option<nat>)
    ensures r == if Value(ds) <= I64_MAX then Some(Value(ds)) else None
  {
    hide Value, Pow10;
    var normalized := NormalizedDigitSlice(ds);
    MaxValue();
    PowersOfTen();
    ValueBound(normalized);
    if |normalized| > 19 {
      LeadingDigitCounts(normalized);
      PowGrows(19, |normalized| - 1);
      return None;
    }
    if |normalized| == 19 {
      LexIsNumeric(normalized, MAX_DIGITS);
      if LexGreater(normalized, MAX_DIGITS) { return None; }
    } else {
      PowGrows(|normalized|, 18);
    }
    r := Some(Value(normalized));
  }

  method QuantizedOffsetFromNanoseconds(ds: seq<Digit>) returns (r: QuantizedOffset)
    ensures r == if Value(ds) / NANOS > I64_MAX then Overflow else Finite(Timestamp(Value(ds) / NANOS, Value(ds) % NANOS))
  {
    hide Value, Pow10, Scaled;
    PowersOfTen();
    var cut := if |ds| > 9 then |ds| - 9 else 0;
    var secondsDigits: seq<Digit> := if |ds| > 9 then ds[..cut] else [0];
    var nanosDigits := if |ds| > 9 then ds[cut..] else Zeros(9 - |ds|) + ds;
    assert Value(ds) == Value(secondsDigits) * NANOS + Value(nanosDigits) && Value(nanosDigits) < NANOS by {
      SecondsAndNanos(ds, cut, secondsDigits, nanosDigits);
    }
    DivisionIs(Value(ds), NANOS, Value(secondsDigits), Value(nanosDigits));
    var seconds := ParseNonnegativeI64Digits(secondsDigits);
    match seconds {
      case None => r := Overflow;
      case Some(s) => r := Finite(Timestamp(s, Value(nanosDigits)));
    }
  }

  lemma SecondsAndNanos(ds: seq<Digit>, cut: nat, secondsDigits: seq<Digit>, nanosDigits: seq<Digit>)
    requires cut == (if |ds| > 9 then |ds| - 9 else 0)
    requires secondsDigits == (if |ds| > 9 then ds[..cut] else [0])
    requires nanosDigits == (if |ds| > 9 then ds[cut..] else Zeros(9 - |ds|) + ds)
    ensures Value(ds) == Value(secondsDigits) * NANOS + Value(nanosDigits) && Value(nanosDigits) < NANOS
  {
    hide Value, Pow10, Scaled, Zeros;
    PowersOfTen();
    ValueBound(nanosDigits);
    if |ds| > 9 { ManyDigits(ds, cut); } else { FewDigits(ds); }
  }

  lemma ManyDigits(ds: seq<Digit>, cut: nat)
    requires |ds| > 9 && cut == |ds| - 9
    ensures Value(ds) == Value(ds[..cut]) * NANOS + Value(ds[cut..])
  {
    hide Value, Pow10, Scaled;
    assert ds == ds[..cut] + ds[cut..];
    ValueConcat(ds[..cut], ds[cut..]);
    Powers(Value(ds[..cut]));
  }

  lemma FewDigits(ds: seq<Digit>)
    requires |ds| <= 9
    ensures Value(ds) == Value([0]) * NANOS + Value(Zeros(9 - |ds|) + ds)
  {
    hide Value, Pow10, Scaled, Zeros;
    ValueConcat(Zeros(9 - |ds|), ds);
    ScaledUnits(|ds|);
    SmallValues();
  }

  /** Exactly the floor or the ceiling of the amount in nanoseconds; overflow
      exactly when its seconds do not fit into an i64. */
  method QuantizeOffset(a: TimeAmount, unit: nat, mode: RoundingMode) returns (r: QuantizedOffset)
    requires a.digits != [] && 0 < unit <= 86400
    ensures r == Quantized(a, unit, mode)
  {
    hide Value, Pow10, Scaled, Rounded;
    var secondsDigits := MultiplyDecimalDigits(a.digits, unit);
    var nanosDigits := QuantizedNanosecondsDigits(secondsDigits, a.scale, mode);
    r := QuantizedOffsetFromNanoseconds(nanosDigits);
  }
}
