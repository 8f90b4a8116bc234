/** Unsigned 64-bit machine arithmetic: the checked and saturating helpers of the
    placement and scheduling code, and its two 128-by-64 bit divisions. */
module WideArithmetic {

  const MAX_UINT64: int := 0xFFFF_FFFF_FFFF_FFFF
  const TWO_64: int := MAX_UINT64 + 1
  const MICROS_PER_SECOND: int := 1_000_000

  type uint64 = x: int | 0 <= x <= MAX_UINT64

  datatype Result<+T, +E> = Ok(value: T) | Err(error: E)

  datatype Option<+T> = None | Some(value: T)

  /** Plain machine addition, which wraps. */
  function WrappingAdd(left: uint64, right: uint64): (sum: uint64)
    ensures left + right <= MAX_UINT64 ==> sum == left + right
  {
    (left + right) % TWO_64
  }

  /** The sum saturated at the largest value, and whether it overflowed. */
  function AddOverflow(left: uint64, right: uint64): (r: (uint64, bool))
    ensures r.1 <==> left + right > MAX_UINT64
    ensures r.0 == if r.1 then MAX_UINT64 else left + right
  {
    if left > MAX_UINT64 - right then (MAX_UINT64, true) else (left + right, false)
  }

  function MultiplyOverflow(left: uint64, right: uint64): (r: (uint64, bool))
    ensures r.1 <==> left * right > MAX_UINT64
    ensures !r.1 ==> r.0 == left * right
  {
    if left != 0 && right > MAX_UINT64 / left then
      assert left * right > MAX_UINT64 by { QuotientExceeded(left, right, MAX_UINT64); }
      (0, true)
    else
      assert left * right <= MAX_UINT64 by {
        if left != 0 { QuotientBounds(left, right, MAX_UINT64); }
      }
      (left * right, false)
  }

  /** Subtraction that stops at zero. */
  function SubtractAvailable(available: uint64, reserved: uint64): (r: uint64)
    ensures r == if reserved <= available then available - reserved else 0
  {
    if reserved >= available then 0 else available - reserved
  }

  lemma QuotientExceeded(d: int, x: int, n: int)
    requires d > 0 && 0 <= n && x > n / d
    ensures d * x > n
  {
    assert n == d * (n / d) + n % d;
    assert d * x >= d * (n / d + 1) by { MulMonotone(n / d + 1, x, d); }
  }

  lemma QuotientBounds(d: int, x: int, n: int)
    requires d > 0 && 0 <= n && 0 <= x <= n / d
    ensures d * x <= n
  {
    assert n == d * (n / d) + n % d;
    MulMonotone(x, n / d, d);
  }

  lemma MulMonotone(a: int, b: int, c: int)
    requires a <= b && 0 <= c
    ensures c * a <= c * b && a * c <= b * c
  {
  }

  /** The 128-bit product as a high and a low word. */
  function Mul64(left: uint64, right: uint64): (r: (uint64, uint64))
    ensures r.0 * TWO_64 + r.1 == left * right
  {
    ProductFits(left, right);
    (left * right / TWO_64, left * right % TWO_64)
  }

  lemma ProductFits(left: uint64, right: uint64)
    ensures 0 <= left * right / TWO_64 <= MAX_UINT64
  {
    MulMonotone(left, MAX_UINT64, right);
    MulMonotone(right, MAX_UINT64, MAX_UINT64);
    BelowSquare(left * right);
  }

  lemma BelowSquare(n: int)
    requires 0 <= n <= MAX_UINT64 * MAX_UINT64
    ensures 0 <= n / TWO_64 <= MAX_UINT64
  {
  }

  /** 128-by-64 bit division. The hardware instruction traps unless the divisor
      exceeds the high word, which is this function's precondition. */
  function Div64(high: uint64, low: uint64, divisor: uint64): (r: (uint64, uint64))
    requires high < divisor
    ensures r.0 * divisor + r.1 == high * TWO_64 + low && 0 <= r.1 < divisor
  {
    var n := high * TWO_64 + low;
    assert n < divisor * TWO_64 by { MulMonotone(high + 1, divisor, TWO_64); }
    assert n / divisor <= MAX_UINT64 by {
      if n / divisor >= TWO_64 { QuotientBounds(divisor, TWO_64, n); }
    }
    assert n / divisor >= 0;
    (n / divisor, n % divisor)
  }

  datatype EstimateError = ZeroDenominator | EstimateOverflow

  /** `q` is the ceiling of `n / d`. */
  ghost predicate IsCeiling(q: int, n: int, d: int)
  {
    q * d >= n && (q - 1) * d < n
  }

  /** left * right / denominator rounded up, exactly, or an error precisely when
      the rounded quotient does not fit in 64 bits. */
  function MultiplyDivideCeil(left: uint64, right: uint64, denominator: uint64): (r: Result<uint64, EstimateError>)
    ensures denominator == 0 <==> r == Err(ZeroDenominator)
    ensures r.Ok? ==> IsCeiling(r.value, left * right, denominator)
    ensures r == Err(EstimateOverflow) <==>
            denominator != 0 && MAX_UINT64 * denominator < left * right
  {
    if denominator == 0 then Err(ZeroDenominator)
    else
      var (high, low) := Mul64(left, right);
      if high >= denominator then
        assert MAX_UINT64 * denominator < left * right by { MulMonotone(denominator, high, TWO_64); }
        Err(EstimateOverflow)
      else
        var (quotient, remainder) := Div64(high, low, denominator);
        assert quotient * denominator + remainder == left * right;
        if remainder > 0 then
          if quotient == MAX_UINT64 then Err(EstimateOverflow)
          else
            assert MAX_UINT64 * denominator >= (quotient + 1) * denominator by {
              MulMonotone(quotient + 1, MAX_UINT64, denominator);
            }
            assert IsCeiling(quotient + 1, left * right, denominator);
            Ok(quotient + 1)
        else
          assert MAX_UINT64 * denominator >= quotient * denominator by {
            MulMonotone(quotient, MAX_UINT64, denominator);
          }
          assert IsCeiling(quotient, left * right, denominator);
          Ok(quotient)
  }

  /** The ceiling is unique, so the contract of `MultiplyDivideCeil` fixes its value. */
  lemma CeilingUnique(p: int, q: int, n: int, d: int)
    requires d > 0 && IsCeiling(p, n, d) && IsCeiling(q, n, d)
    ensures p == q
  {
    if p < q { MulMonotone(p, q - 1, d); }
    if q < p { MulMonotone(q, p - 1, d); }
  }

  /** Effective throughput: the floor of payload * 10^6 / elapsed capped at 2^64 - 1. */
  function BytesPerSecond(payloadBytes: uint64, elapsedMicros: uint64): (rate: uint64)
    requires elapsedMicros > 0
    ensures var exact := payloadBytes * MICROS_PER_SECOND / elapsedMicros;
            rate == if exact <= MAX_UINT64 then exact else MAX_UINT64
  {
    var whole := payloadBytes / elapsedMicros;
    var remainder := payloadBytes % elapsedMicros;
    ThroughputSplit(payloadBytes, elapsedMicros);
    if whole > MAX_UINT64 / MICROS_PER_SECOND then
      MAX_UINT64
    else
      var result: uint64 := whole * MICROS_PER_SECOND;
      var (high, low) := Mul64(remainder, MICROS_PER_SECOND);
      PartialFits(remainder, elapsedMicros, high, low);
      var (partial, rest) := Div64(high, low, elapsedMicros);
      DivisionUnique(remainder * MICROS_PER_SECOND, elapsedMicros, partial, rest);
      if result > MAX_UINT64 - partial then MAX_UINT64 else result + partial
  }

  lemma PartialFits(remainder: int, elapsed: int, high: int, low: int)
    requires 0 <= remainder < elapsed && 0 <= low && high * TWO_64 + low == remainder * MICROS_PER_SECOND
    ensures high < elapsed
  {
  }

  lemma DivisionUnique(n: int, d: int, q: int, r: int)
    requires 0 < d && n == q * d + r && 0 <= r < d
    ensures n / d == q
  {
    DivShift(q, r, d);
  }

  lemma ThroughputSplit(payload: int, elapsed: int)
    requires 0 <= payload && 0 < elapsed
    ensures var whole := payload / elapsed;
            var partial := (payload % elapsed) * MICROS_PER_SECOND / elapsed;
            && 0 <= partial
            && payload * MICROS_PER_SECOND / elapsed == whole * MICROS_PER_SECOND + partial
  {
    var whole := payload / elapsed;
    var rest := (payload % elapsed) * MICROS_PER_SECOND;
    assert payload * MICROS_PER_SECOND == (whole * MICROS_PER_SECOND) * elapsed + rest;
    DivShift(whole * MICROS_PER_SECOND, rest, elapsed);
  }

  lemma DivShift(q: int, r: int, d: int)
    requires d > 0
    ensures (q * d + r) / d == q + r / d
  {
    var n := q * d + r;
    var k := q + r / d;
    assert n == k * d + r % d;
    if n / d < k { MulMonotone(n / d + 1, k, d); }
    if n / d > k { MulMonotone(k + 1, n / d, d); }
  }

  /** A measured transfer has a zero rate exactly when it moved less than one
      byte per second. */
  lemma ZeroThroughput(payloadBytes: uint64, elapsedMicros: uint64)
    requires elapsedMicros > 0
    ensures BytesPerSecond(payloadBytes, elapsedMicros) == 0 <==>
            payloadBytes * MICROS_PER_SECOND < elapsedMicros
  {
    var n := payloadBytes * MICROS_PER_SECOND;
    assert n == elapsedMicros * (n / elapsedMicros) + n % elapsedMicros;
    if n >= elapsedMicros && n / elapsedMicros <= 0 {
      MulMonotone(n / elapsedMicros, 0, elapsedMicros);
    }
    if n < elapsedMicros && n / elapsedMicros >= 1 {
      MulMonotone(1, n / elapsedMicros, elapsedMicros);
    }
  }
}
