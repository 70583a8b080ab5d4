/** Exponential backoff with jitter. Durations are whole nanoseconds; the random draw `u` is any real in [0, 1). */
module Backoff {

  /** Two hours. */
  const MAX_DELAY: int := 7_200_000_000_000

  /** Attempts beyond this one grow no further. */
  const MAX_SHIFT: int := 15

  function Pow2(n: nat): (p: nat)
    ensures p >= 1
  {
    if n == 0 then 1 else 2 * Pow2(n - 1)
  }

  /** Conversion to an integer truncates toward zero. */
  function Truncate(x: real): int {
    if x >= 0.0 then x.Floor else -((-x).Floor)
  }

  function Shift(attempt: int): nat
    requires attempt > 0
  {
    if attempt > MAX_SHIFT then MAX_SHIFT else attempt
  }

  function Part(u: real, x: real): real { u * x }

  /** A delay moved by up to 10% either way. */
  function Spread(delay: int, u: real): real {
    var amount := delay as real * 0.1;
    var jitter := Part(u, 2.0 * amount) - amount;
    delay as real + jitter
  }

  function Jittered(delay: int, u: real): int {
    var final := Truncate(Spread(delay, u));
    if final > MAX_DELAY then MAX_DELAY else final
  }

  function CalculateBackoff(attempt: int, base: int, u: real): int {
    if attempt <= 0 then base else Jittered(base * Pow2(Shift(attempt)), u)
  }

  lemma {:induction false} Pow2Monotone(m: nat, n: nat)
    requires m <= n
    ensures Pow2(m) <= Pow2(n)
    ensures m < n ==> 2 * Pow2(m) <= Pow2(n)
  {
    if m < n {
      Pow2Monotone(m, n - 1);
    }
  }

  lemma SpreadRange(delay: int, u: real)
    requires delay >= 0 && 0.0 <= u < 1.0
    ensures 0.9 * delay as real <= Spread(delay, u) <= 1.1 * delay as real
    ensures delay > 0 ==> Spread(delay, u) < 1.1 * delay as real
  {
    hide Part;
    var amount := delay as real * 0.1;
    PartRange(u, 2.0 * amount);
  }

  lemma PartRange(u: real, x: real)
    requires 0.0 <= u < 1.0 && x >= 0.0
    ensures 0.0 <= Part(u, x) <= x && (x > 0.0 ==> Part(u, x) < x)
  {
    var v := 1.0 - u;
    assert v * x == x - u * x;
    if x > 0.0 {
      assert v * x > 0.0;
    }
  }

  lemma TruncateRange(x: real)
    requires x >= 0.0
    ensures 0 <= Truncate(x) && Truncate(x) as real <= x < Truncate(x) as real + 1.0
  {
  }

  lemma JitteredRange(delay: int, u: real)
    requires delay >= 0 && 0.0 <= u < 1.0
    ensures var b := Jittered(delay, u);
            && 0 <= b <= MAX_DELAY && 10 * b <= 11 * delay
            && (b < MAX_DELAY ==> 10 * (b + 1) > 9 * delay)
            && (delay > 0 && b < MAX_DELAY ==> 10 * b < 11 * delay)
  {
    SpreadRange(delay, u);
    var x := Spread(delay, u);
    TruncateRange(x);
    var b := Truncate(x);
    assert 10.0 * b as real <= 11.0 * delay as real;
    assert 10.0 * (b as real + 1.0) > 9.0 * delay as real;
    assert (10 * b) as real == 10.0 * b as real;
  }

  lemma ScaleNonNegative(base: int, p: int)
    requires base >= 0 && p >= 0
    ensures base * p >= 0
  {
  }

  lemma ScaleMonotone(base: int, p: int, q: int)
    requires base >= 0 && p <= q
    ensures base * p <= base * q
  {
  }

  lemma ScaledDoubling(base: int, p: int, q: int)
    requires base >= 1 && p >= 2 && 2 * p <= q
    ensures base * p >= 2 && base * q >= 2 * (base * p)
  {
    ScaleMonotone(p, 1, base);
    ScaleMonotone(base, 2 * p, q);
    assert base * (2 * p) == 2 * (base * p);
  }

  /** Each delay is within 10% of base * 2^attempt up to truncation, unless the two-hour cap cut it. */
  lemma DelayRange(attempt: int, base: int, u: real)
    requires attempt >= 1 && base >= 0 && 0.0 <= u < 1.0
    ensures var d, b := base * Pow2(Shift(attempt)), CalculateBackoff(attempt, base, u);
            && 0 <= b <= MAX_DELAY && 10 * b <= 11 * d
            && (b < MAX_DELAY ==> 10 * (b + 1) > 9 * d)
            && (d > 0 && b < MAX_DELAY ==> 10 * b < 11 * d)
  {
    ScaleNonNegative(base, Pow2(Shift(attempt)));
    JitteredRange(base * Pow2(Shift(attempt)), u);
  }

  /** Doubling the nominal delay outweighs any jitter. */
  lemma DoublingOutrunsJitter(d: int, d': int, u: real, u': real)
    requires d >= 2 && d' >= 2 * d
    requires 0.0 <= u < 1.0 && 0.0 <= u' < 1.0
    ensures Jittered(d, u) < Jittered(d', u') || Jittered(d, u) == Jittered(d', u') == MAX_DELAY
  {
    JitteredRange(d, u);
    JitteredRange(d', u');
  }

  /** Jitter never makes a later attempt wait less than an earlier one while the exponent still grows. */
  lemma JitterKeepsOrder(k: int, k': int, base: int, u: real, u': real)
    requires 1 <= k < k' && k < MAX_SHIFT && base > 0
    requires 0.0 <= u < 1.0 && 0.0 <= u' < 1.0
    ensures var b, b' := CalculateBackoff(k, base, u), CalculateBackoff(k', base, u');
            b < b' || b == b' == MAX_DELAY
  {
    Pow2Monotone(Shift(k), Shift(k'));
    Pow2Monotone(1, Shift(k));
    ScaledDoubling(base, Pow2(Shift(k)), Pow2(Shift(k')));
    DoublingOutrunsJitter(base * Pow2(Shift(k)), base * Pow2(Shift(k')), u, u');
  }

  /**
   From the fifteenth attempt on the exponent is frozen, and two attempts keep their order under every
   draw exactly when even the shortest delay is cut by the cap.
   */
  lemma OrderBeyondTheShift(k: int, k': int, base: int)
    requires MAX_SHIFT <= k < k' && base > 0
    ensures (forall u: real, u': real | 0.0 <= u < 1.0 && 0.0 <= u' < 1.0 ::
               CalculateBackoff(k, base, u) <= CalculateBackoff(k', base, u'))
            <==> 9 * base * Pow2(15) >= 10 * MAX_DELAY
  {
    var d := base * Pow2(15);
    ScaleMonotone(base, 1, Pow2(15));
    assert Shift(k) == Shift(k') == 15;
    if 9 * d >= 10 * MAX_DELAY {
      forall u: real, u': real | 0.0 <= u < 1.0 && 0.0 <= u' < 1.0
        ensures CalculateBackoff(k, base, u) <= CalculateBackoff(k', base, u')
      {
        JitteredRange(d, u);
        JitteredRange(d, u');
      }
    } else {
      JitteredOrderFails(d);
      assert CalculateBackoff(k, base, 0.5) > CalculateBackoff(k', base, 0.0);
    }
  }

  lemma JitteredOrderFails(d: int)
    requires d > 0 && 9 * d < 10 * MAX_DELAY
    ensures Jittered(d, 0.5) > Jittered(d, 0.0)
  {
    var x := 0.9 * d as real;
    assert x.Floor as real <= x < x.Floor as real + 1.0;
    assert Spread(d, 0.0) == x;
    assert Spread(d, 0.5) == d as real;
  }

  /** Ten times what `k` retries may wait in all: 11 * base * (2 + 4 + ... + 2^k). */
  function Budget(base: nat, k: nat): int {
    11 * base * (Pow2(k + 1) - 2)
  }

  /** The k-th retry fits in what the k-th step adds to the budget, even when its carried attempt lags behind. */
  lemma DelayFitsBudget(attempt: int, k: nat, base: nat, u: real)
    requires 1 <= attempt <= k && 0.0 <= u < 1.0
    ensures 10 * CalculateBackoff(attempt, base, u) + Budget(base, k - 1) <= Budget(base, k)
    ensures 0 <= CalculateBackoff(attempt, base, u) <= MAX_DELAY
  {
    DelayRange(attempt, base, u);
    Pow2Monotone(Shift(attempt), k);
    ScaleMonotone(base, Pow2(Shift(attempt)), Pow2(k));
    BudgetStep(base, k);
  }

  lemma BudgetStep(base: nat, k: nat)
    requires k >= 1
    ensures Budget(base, k) == Budget(base, k - 1) + 11 * (base * Pow2(k))
  {
    var p := Pow2(k);
    assert Pow2(k + 1) == 2 * p;
    assert 11 * base * (2 * p - 2) == 11 * base * (p - 2) + 11 * (base * p);
  }

  lemma PartGrows(u: real, w: real, x: real)
    requires u <= w && x >= 0.0
    ensures Part(u, x) <= Part(w, x)
  {
    var more := w - u;
    assert more * x == w * x - u * x;
    assert more * x >= 0.0;
  }

  lemma HalfIsNoChange(delay: int)
    ensures Spread(delay, 0.5) == delay as real
  {
  }

  lemma TruncateGrows(x: real, y: real)
    requires 0.0 <= x <= y
    ensures Truncate(x) <= Truncate(y)
  {
  }

  lemma JitteredGrows(delay: int, u: real, w: real)
    requires delay >= 0 && 0.0 <= u <= w < 1.0
    ensures Jittered(delay, u) <= Jittered(delay, w)
  {
    hide Part, Truncate;
    SpreadRange(delay, u);
    PartGrows(u, w, 2.0 * (delay as real * 0.1));
    TruncateGrows(Spread(delay, u), Spread(delay, w));
  }

  /** The delay without jitter. */
  function Nominal(attempt: int, base: int): int {
    if attempt <= 0 then base
    else if base * Pow2(Shift(attempt)) > MAX_DELAY then MAX_DELAY
    else base * Pow2(Shift(attempt))
  }

  /** The larger the draw, the longer the delay; a draw of one half changes nothing. */
  lemma DelayFollowsTheDraw(attempt: int, base: int, u: real, w: real)
    requires base >= 0 && 0.0 <= u <= w < 1.0
    ensures CalculateBackoff(attempt, base, u) <= CalculateBackoff(attempt, base, w)
    ensures CalculateBackoff(attempt, base, 0.5) == Nominal(attempt, base)
    ensures w <= 0.5 ==> CalculateBackoff(attempt, base, w) <= Nominal(attempt, base)
    ensures u >= 0.5 ==> CalculateBackoff(attempt, base, u) >= Nominal(attempt, base)
  {
    if attempt > 0 {
      var d := base * Pow2(Shift(attempt));
      ScaleNonNegative(base, Pow2(Shift(attempt)));
      hide Jittered;
      JitteredGrows(d, u, w);
      if w <= 0.5 {
        JitteredGrows(d, w, 0.5);
      }
      if u >= 0.5 {
        JitteredGrows(d, 0.5, u);
      }
      HalfJitter(d);
    }
  }

  lemma HalfJitter(delay: int)
    requires delay >= 0
    ensures Jittered(delay, 0.5) == if delay > MAX_DELAY then MAX_DELAY else delay
  {
    hide Spread;
    HalfIsNoChange(delay);
  }

  lemma PartAround(u: real, amount: real)
    ensures Part(u, 2.0 * amount) - amount == (2.0 * u - 1.0) * amount
  {
  }

  /** A draw above one half that moves the delay by a whole unit lengthens it. */
  lemma LargeDrawsLengthen(attempt: int, base: int, u: real)
    requires attempt > 0 && base >= 0 && 0.5 < u < 1.0
    requires var d := base * Pow2(Shift(attempt)); d < MAX_DELAY && (2.0 * u - 1.0) * (d as real * 0.1) >= 1.0
    ensures CalculateBackoff(attempt, base, u) > Nominal(attempt, base)
  {
    hide Part, Pow2;
    var d := base * Pow2(Shift(attempt));
    PartAround(u, d as real * 0.1);
  }

  /** No delay exceeds two hours, and from the fifteenth attempt on they grow no further. */
  lemma DelaysStopGrowing(attempt: int, base: int, u: real)
    requires attempt > 0 && base >= 0 && 0.0 <= u < 1.0
    ensures CalculateBackoff(attempt, base, u) <= 2 * 3600 * 1_000_000_000
    ensures attempt >= 15 ==> CalculateBackoff(attempt, base, u) == CalculateBackoff(15, base, u)
  {
    hide Pow2, Truncate, Spread;
  }
}
