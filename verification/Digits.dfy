/** Decimal arithmetic on digit strings of any length. */
module Digits {
  import opened Basics

  type Digit = d: nat | d < 10

  const U32_LIMIT: nat := 0x1_0000_0000
  const I64_MAX: nat := 9223372036854775807
  const I64_MIN: int := -9223372036854775808
  const NANOS: nat := 1_000_000_000

  datatype RoundingMode = Floor | Ceil

  /** The number a digit string stands for, most significant digit first. */
  function Value(ds: seq<Digit>): nat {
    if ds == [] then 0 else 10 * Value(ds[..|ds| - 1]) + ds[|ds| - 1]
  }

  function Pow10(n: nat): (p: nat)
    ensures p > 0
  {
    if n == 0 then 1 else 10 * Pow10(n - 1)
  }

  function Scaled(v: nat, n: nat): nat {
    v * Pow10(n)
  }

  lemma ScaledShift(v: nat, n: nat)
    ensures Scaled(v, n + 1) == Scaled(10 * v, n)
  {
    var p := Pow10(n);
    assert v * (10 * p) == (10 * v) * p;
  }

  lemma ScaledUnits(n: nat)
    ensures Scaled(1, n) == Pow10(n) && Scaled(0, n) == 0
  {
  }

  function Rounded(num: nat, den: nat, mode: RoundingMode): nat
    requires den > 0
  {
    match mode
    case Floor => num / den
    case Ceil => (num + den - 1) / den
  }

  // ----- Values -----

  lemma ValuePush(ds: seq<Digit>, d: Digit)
    ensures Value(ds + [d]) == 10 * Value(ds) + d
  {
    assert (ds + [d])[..|ds|] == ds;
  }

  lemma {:induction false} ValueFirst(ds: seq<Digit>)
    requires ds != []
    ensures Value(ds) == ds[0] * Pow10(|ds| - 1) + Value(ds[1..])
  {
    var n := |ds| - 1;
    if n > 0 {
      var mid := ds[..n];
      ValueFirst(mid);
      assert mid[1..] == ds[1..][..n - 1];
      assert Value(ds) == 10 * Value(mid) + ds[n] && Value(ds[1..]) == 10 * Value(mid[1..]) + ds[n];
      Rearrange(ds[0], Pow10(n - 1));
    }
  }

  lemma {:induction false} ValueBound(ds: seq<Digit>)
    ensures Value(ds) < Pow10(|ds|)
  {
    if ds != [] { ValueBound(ds[..|ds| - 1]); }
  }

  lemma {:induction false} PowAdd(a: nat, b: nat)
    ensures Pow10(a + b) == Pow10(a) * Pow10(b)
  {
    if b > 0 {
      PowAdd(a, b - 1);
      Rearrange(Pow10(a), Pow10(b - 1));
    }
  }

  lemma Rearrange(x: nat, y: nat)
    ensures 10 * (x * y) == x * (10 * y)
  {
  }

  lemma {:induction false} ValueConcat(a: seq<Digit>, b: seq<Digit>)
    ensures Value(a + b) == Scaled(Value(a), |b|) + Value(b)
  {
    if b == [] {
      assert a + b == a;
    } else {
      var n := |b| - 1;
      ValueConcat(a, b[..n]);
      assert a + b == a + b[..n] + [b[n]];
      ValuePush(a + b[..n], b[n]);
      Rearrange(Value(a), Pow10(n));
    }
  }

  lemma {:induction false} ZeroValue(ds: seq<Digit>)
    ensures Value(ds) == 0 <==> forall i :: 0 <= i < |ds| ==> ds[i] == 0
  {
    if ds != [] {
      var n := |ds| - 1;
      ZeroValue(ds[..n]);
      if Value(ds) == 0 { forall i | 0 <= i < |ds| ensures ds[i] == 0 { if i < n { assert ds[..n][i] == ds[i]; } } }
      if forall i :: 0 <= i < |ds| ==> ds[i] == 0 { assert forall i :: 0 <= i < n ==> ds[..n][i] == ds[i]; }
    }
  }

  function Zeros(n: nat): (r: seq<Digit>)
    ensures |r| == n && Value(r) == 0
  {
    if n == 0 then [] else (ValuePush(Zeros(n - 1), 0); Zeros(n - 1) + [0])
  }

  // ----- Multiplication -----

  /** Least significant digit first. */
  function LittleValue(ds: seq<Digit>): nat {
    if ds == [] then 0 else LittleValue(ds[..|ds| - 1]) + ds[|ds| - 1] * Pow10(|ds| - 1)
  }

  function Reversed(ds: seq<Digit>): (r: seq<Digit>)
    ensures |r| == |ds|
  {
    if ds == [] then [] else [ds[|ds| - 1]] + Reversed(ds[..|ds| - 1])
  }

  lemma {:induction false} ReversedValue(ds: seq<Digit>)
    ensures Value(Reversed(ds)) == LittleValue(ds)
  {
    if ds != [] {
      ReversedValue(ds[..|ds| - 1]);
      ValueFirst(Reversed(ds));
    }
  }

  lemma LittlePush(ds: seq<Digit>, d: Digit)
    ensures LittleValue(ds + [d]) == LittleValue(ds) + d * Pow10(|ds|)
  {
    assert (ds + [d])[..|ds|] == ds;
  }

  /** One digit of the long multiplication. */
  lemma CarryStep(low: nat, carry: nat, p: nat, tail: nat, d: nat, m: nat)
    requires low + carry * p == tail * m
    ensures var v := d * m + carry;
      (low + (v % 10) * p) + (v / 10) * (10 * p) == (tail + d * p) * m
  {
    var v := d * m + carry;
    assert v == 10 * (v / 10) + v % 10;
    calc {
      low + (v % 10) * p + (v / 10) * (10 * p);
      low + (v % 10 + 10 * (v / 10)) * p;
      low + (d * m + carry) * p;
      low + carry * p + (d * m) * p;
      tail * m + (d * p) * m;
      (tail + d * p) * m;
    }
  }

  lemma DropCarry(low: nat, carry: nat, p: nat)
    ensures (low + (carry % 10) * p) + (carry / 10) * (10 * p) == low + carry * p
  {
    assert carry == 10 * (carry / 10) + carry % 10;
    assert (carry % 10) * p + (carry / 10) * (10 * p) == (carry % 10 + 10 * (carry / 10)) * p;
  }

  /** digit times multiplier plus carry */
  function LongStep(d: Digit, m: nat, carry: nat): nat {
    d * m + carry
  }

  lemma CarryStaysBelow(d: Digit, m: nat, carry: nat)
    requires 0 < m && carry < m
    ensures LongStep(d, m, carry) < 10 * m && LongStep(d, m, carry) / 10 < m
  {
    assert d * m <= 9 * m;
  }

  /** The product of the digits from i on, the carry still to be written. */
  ghost predicate Partial(ds: seq<Digit>, i: nat, m: nat, product: seq<Digit>, carry: nat)
    requires i <= |ds|
  {
    LittleValue(product) + carry * Pow10(|product|) == Value(ds[i..]) * m
  }

  lemma PartialStep(ds: seq<Digit>, i: nat, m: nat, product: seq<Digit>, carry: nat)
    requires i < |ds| && |product| == |ds| - i - 1 && Partial(ds, i + 1, m, product, carry)
    ensures var v := LongStep(ds[i], m, carry); Partial(ds, i, m, product + [v % 10], v / 10)
  {
    var v := LongStep(ds[i], m, carry);
    CarryStep(LittleValue(product), carry, Pow10(|product|), Value(ds[i + 1..]), ds[i], m);
    assert ds[i..][1..] == ds[i + 1..];
    ValueFirst(ds[i..]);
    LittlePush(product, v % 10);
  }

  lemma PartialDrop(ds: seq<Digit>, m: nat, product: seq<Digit>, carry: nat)
    requires Partial(ds, 0, m, product, carry)
    ensures Partial(ds, 0, m, product + [carry % 10], carry / 10)
  {
    DropCarry(LittleValue(product), carry, Pow10(|product|));
    LittlePush(product, carry % 10);
  }

  /** The product, digit by digit from the right.  The carry stays below the
      multiplier, so the 32-bit intermediate values do not overflow. */
  method MultiplyDecimalDigits(ds: seq<Digit>, multiplier: nat) returns (product: seq<Digit>)
    requires 0 < multiplier && 10 * multiplier <= U32_LIMIT
    ensures Value(product) == Value(ds) * multiplier
    ensures |product| >= |ds|
  {
    hide Value, LittleValue, Pow10, LongStep;
    product := [];
    var carry := 0;
    var i := |ds|;
    assert Partial(ds, |ds|, multiplier, [], 0) by { NothingYet(ds, multiplier); }
    hide Partial;
    while i > 0
      invariant 0 <= i <= |ds| && |product| == |ds| - i && 0 <= carry < multiplier
      invariant Partial(ds, i, multiplier, product, carry)
    {
      i := i - 1;
      CarryStaysBelow(ds[i], multiplier, carry);
      var value := LongStep(ds[i], multiplier, carry);
      assert value < U32_LIMIT;
      PartialStep(ds, i, multiplier, product, carry);
      product := product + [value % 10];
      carry := value / 10;
    }
    while carry > 0
      invariant carry >= 0 && |product| >= |ds|
      invariant Partial(ds, 0, multiplier, product, carry)
    {
      PartialDrop(ds, multiplier, product, carry);
      product := product + [carry % 10];
      carry := carry / 10;
    }
    assert LittleValue(product) == Value(ds) * multiplier by { AllDone(ds, multiplier, product); }
    ReversedValue(product);
    product := Reversed(product);
  }

  lemma NothingYet(ds: seq<Digit>, m: nat)
    ensures Partial(ds, |ds|, m, [], 0)
  {
  }

  lemma AllDone(ds: seq<Digit>, m: nat, product: seq<Digit>)
    requires Partial(ds, 0, m, product, 0)
    ensures LittleValue(product) == Value(ds) * m
  {
    assert ds[0..] == ds;
  }

  // ----- Trimming and incrementing -----

  function Trimmed(ds: seq<Digit>): (r: seq<Digit>)
    ensures Value(r) == Value(ds)
    ensures ds != [] ==> r != []
    ensures |r| <= |ds|
    decreases |ds|
  {
    if |ds| > 1 && ds[0] == 0 then (ValueFirst(ds); Trimmed(ds[1..])) else ds
  }

  method TrimLeadingZeroDigits(ds: seq<Digit>) returns (r: seq<Digit>)
    ensures r == Trimmed(ds)
  {
    r := ds;
    while |r| > 1 && r[0] == 0
      invariant Trimmed(r) == Trimmed(ds)
    {
      r := r[1..];
    }
  }

  method AnyNonzero(ds: seq<Digit>) returns (b: bool)
    ensures b <==> Value(ds) > 0
  {
    ZeroValue(ds);
    b := exists i :: 0 <= i < |ds| && ds[i] != 0;
  }

  /** The digits from i on were nines and have been turned to zeros. */
  ghost predicate Carried(ds: seq<Digit>, r: seq<Digit>, i: nat)
    requires i <= |ds|
  {
    && r == ds[..i] + Zeros(|ds| - i)
    && Scaled(Value(ds[..i]) + 1, |ds| - i) == Value(ds) + 1
  }

  lemma SplitAt(ds: seq<Digit>, i: nat)
    requires i < |ds|
    ensures ds[..i + 1] == ds[..i] + [ds[i]] && Value(ds[..i + 1]) == 10 * Value(ds[..i]) + ds[i]
  {
    assert ds[..i + 1] == ds[..i] + [ds[i]];
    ValuePush(ds[..i], ds[i]);
  }

  lemma CarryOn(ds: seq<Digit>, r: seq<Digit>, i: nat)
    requires i < |ds| && Carried(ds, r, i + 1) && ds[i] == 9
    ensures Carried(ds, r[i := 0], i)
  {
    hide Value, Zeros, Scaled;
    var tail: nat := |ds| - i - 1;
    SplitAt(ds, i);
    ZerosFirst(tail);
    assert r[i := 0] == ds[..i] + Zeros(tail + 1);
    ScaledShift(Value(ds[..i]) + 1, tail);
  }

  lemma CarryStops(ds: seq<Digit>, r: seq<Digit>, i: nat)
    requires i < |ds| && Carried(ds, r, i + 1) && ds[i] < 9
    ensures r[i] == ds[i] && Value(r[i := ds[i] + 1]) == Value(ds) + 1
  {
    hide Value, Zeros, Scaled;
    var tail: nat := |ds| - i - 1;
    SplitAt(ds, i);
    ValuePush(ds[..i], ds[i] + 1);
    assert r[i := ds[i] + 1] == (ds[..i] + [ds[i] + 1]) + Zeros(tail);
    ValueConcat(ds[..i] + [ds[i] + 1], Zeros(tail));
  }

  lemma OneInFront(n: nat)
    ensures Value([1] + Zeros(n)) == Scaled(1, n)
  {
    assert Value([1]) == 1 by { ValuePush([], 1); assert [] + [1] == [1]; }
    hide Value, Zeros, Scaled;
    ValueConcat([1], Zeros(n));
  }

  lemma CarriedOut(ds: seq<Digit>, r: seq<Digit>)
    requires Carried(ds, r, 0)
    ensures Value([1] + r) == Value(ds) + 1
  {
    assert Value(ds[..0]) == 0;
    hide Value, Zeros, Scaled;
    assert r == Zeros(|ds|);
    OneInFront(|ds|);
  }

  /** Adds one, in place from the right. */
  method IncrementDecimalDigits(ds: seq<Digit>) returns (r: seq<Digit>)
    ensures Value(r) == Value(ds) + 1
    ensures |r| >= |ds|
  {
    r := ds;
    var carry := true;
    var i := |ds|;
    assert Carried(ds, ds, |ds|) by { assert ds[..|ds|] == ds && ds + Zeros(0) == ds; }
    hide Value, Zeros, Scaled;
    while i > 0 && carry
      invariant 0 <= i <= |ds| && |r| == |ds|
      invariant carry ==> Carried(ds, r, i)
      invariant !carry ==> Value(r) == Value(ds) + 1
    {
      i := i - 1;
      assert r[i] == ds[i];
      if r[i] == 9 {
        CarryOn(ds, r, i);
        r := r[i := 0];
      } else {
        CarryStops(ds, r, i);
        r := r[i := r[i] + 1];
        carry := false;
      }
    }
    if carry {
      CarriedOut(ds, r);
      r := [1] + r;
    }
  }

  lemma {:induction false} ZerosFirst(n: nat)
    ensures Zeros(n + 1) == [0] + Zeros(n)
  {
    if n > 0 { ZerosFirst(n - 1); }
  }
}
