/**
 The arithmetic of getSamplePosition: a sample position turned into nanoseconds
 with 64-bit unsigned operations, in quotient and remainder form.
 */
module Timestamps {

  const TWO_64 := 0x1_0000_0000_0000_0000
  const SECOND := 1_000_000_000
  const MILLISECOND := 1_000_000

  function U64(i: nat): (r: nat)
    ensures r < TWO_64 && (i < TWO_64 ==> r == i)
  {
    i % TWO_64
  }

  /** latch_start_timestamp, from a 32-bit clock in milliseconds. */
  function StartTimestamp(milliseconds: nat): nat {
    U64(milliseconds * MILLISECOND)
  }

  function Quotient(n: nat, d: nat): nat
    requires d > 0
  {
    n / d
  }

  function Remainder(n: nat, d: nat): (r: nat)
    requires d > 0
    ensures r < d
  {
    n % d
  }

  /** The timestamp as the driver computes it, every operation modulo 2^64. */
  function Timestamp(start: nat, pos: nat, rate: nat): nat
    requires rate > 0
  {
    U64(U64(start + U64(Quotient(pos, rate) * SECOND)) + Quotient(U64(Remainder(pos, rate) * SECOND), rate))
  }

  /** The nanoseconds that `pos` samples last, rounded down. */
  function Nanoseconds(pos: nat, rate: nat): nat
    requires rate > 0
  {
    Quotient(pos * SECOND, rate)
  }

  lemma MultiplesApart(a: int, b: int, d: nat)
    requires a < b
    ensures a * d + d <= b * d
  {
    assert b * d - a * d - d == (b - a - 1) * d;
    assert (b - a - 1) * d >= 0;
  }

  lemma QuotientUnique(n: nat, d: nat, q: nat)
    requires d > 0 && q * d <= n < q * d + d
    ensures n / d == q
  {
    if n / d < q {
      MultiplesApart(n / d, q, d);
    } else if q < n / d {
      MultiplesApart(q, n / d, d);
    }
  }

  /** Splitting off whole seconds loses nothing, for every position and rate. */
  lemma QuotientForm(pos: nat, rate: nat)
    requires rate > 0
    ensures pos / rate * SECOND + pos % rate * SECOND / rate == Nanoseconds(pos, rate)
  {
    var q, m := pos / rate, pos % rate;
    SplitProduct(q, m, rate, pos);
    var x := m * SECOND;
    assert x / rate * rate <= x < x / rate * rate + rate;
    Recombine(q, x / rate, rate);
    QuotientUnique(pos * SECOND, rate, q * SECOND + x / rate);
  }

  lemma SplitProduct(q: nat, m: nat, rate: nat, pos: nat)
    requires pos == q * rate + m
    ensures pos * SECOND == q * rate * SECOND + m * SECOND
  {
  }

  lemma Recombine(q: nat, p: nat, rate: nat)
    ensures (q * SECOND + p) * rate == q * rate * SECOND + p * rate
  {
    assert q * SECOND * rate == q * rate * SECOND;
  }

  lemma {:induction false} NanosecondsMonotone(a: nat, b: nat, rate: nat)
    requires rate > 0 && a <= b
    ensures Nanoseconds(a, rate) <= Nanoseconds(b, rate)
  {
    var p, q := Nanoseconds(a, rate), Nanoseconds(b, rate);
    assert p * rate <= a * SECOND <= b * SECOND < q * rate + rate;
    if q < p {
      MultiplesApart(q, p, rate);
    }
  }

  lemma SumsModulo(start: nat, a: nat, b: nat)
    requires b < TWO_64
    ensures U64(U64(start + U64(a)) + b) == (start + a + b) % TWO_64
  {
  }

  lemma ProductGrows(q: nat, d: nat)
    requires d > 0
    ensures q <= q * d
  {
    assert q * d == q + q * (d - 1);
  }

  lemma QuotientIsSmaller(n: nat, d: nat)
    requires d > 0
    ensures Quotient(n, d) <= n
  {
    var q := n / d;
    assert q * d <= n;
    ProductGrows(q, d);
  }

  /** The computed timestamp is the true one modulo 2^64, for every position. */
  lemma ExactModulo(start: nat, pos: nat, rate: nat)
    requires 0 < rate < 0x1_0000_0000
    ensures Timestamp(start, pos, rate) == (start + Nanoseconds(pos, rate)) % TWO_64
  {
    QuotientForm(pos, rate);
    var rest := Remainder(pos, rate) * SECOND;
    assert rest < 0x1_0000_0000 * SECOND < TWO_64;
    QuotientIsSmaller(rest, rate);
    var whole, part := Quotient(pos, rate) * SECOND, Quotient(rest, rate);
    SumsModulo(start, whole, part);
    assert Timestamp(start, pos, rate) == U64(U64(start + U64(whole)) + part);
    assert Nanoseconds(pos, rate) == whole + part;
    hide *;
    assert start + whole + part == start + Nanoseconds(pos, rate);
  }

  /** The computed timestamp is exact whenever the true one fits in 64 bits and
      the rate is a 32-bit number: no intermediate result overflows earlier. */
  lemma ExactExactlyInRange(start: nat, pos: nat, rate: nat)
    requires 0 < rate < 0x1_0000_0000
    ensures Timestamp(start, pos, rate) == start + Nanoseconds(pos, rate) <==> start + Nanoseconds(pos, rate) < TWO_64
  {
    QuotientForm(pos, rate);
    assert pos % rate * SECOND < 0x1_0000_0000 * SECOND < TWO_64;
  }

  lemma TimestampMonotone(start: nat, a: nat, b: nat, rate: nat)
    requires 0 < rate < 0x1_0000_0000 && a <= b && start + Nanoseconds(b, rate) < TWO_64
    ensures Timestamp(start, a, rate) <= Timestamp(start, b, rate)
  {
    NanosecondsMonotone(a, b, rate);
    ExactExactlyInRange(start, a, rate);
    ExactExactlyInRange(start, b, rate);
  }

  /** Nine billion seconds at 48 kHz from any start of the 32-bit clock stay
      below 2^63, so the signed ASIO time stamp never turns negative. */
  lemma CenturiesWithoutOverflow(milliseconds: nat, pos: nat)
    requires milliseconds < 0x1_0000_0000 && pos <= 48_000 * 9_000_000_000
    ensures Timestamp(StartTimestamp(milliseconds), pos, 48_000) ==
            milliseconds * MILLISECOND + Nanoseconds(pos, 48_000)
    ensures Timestamp(StartTimestamp(milliseconds), pos, 48_000) < TWO_64 / 2
  {
    NanosecondsMonotone(pos, 48_000 * 9_000_000_000, 48_000);
    ExactExactlyInRange(milliseconds * MILLISECOND, pos, 48_000);
  }

  /** Multiplying first would leave 64 bits after less than five days at 48 kHz. */
  lemma DirectProductOverflows(pos: nat)
    ensures U64(pos * SECOND) == pos * SECOND <==> pos < 18_446_744_074
  {
  }

  /** One block lasts 1333333 or 1333334 ns, and three blocks exactly 4 ms:
      rounding never accumulates. */
  lemma BlockDuration(pos: nat)
    ensures Nanoseconds(pos + 64, 48_000) - Nanoseconds(pos, 48_000) in {1_333_333, 1_333_334}
    ensures Nanoseconds(pos + 3 * 64, 48_000) == Nanoseconds(pos, 48_000) + 4 * MILLISECOND
  {
    var n := pos * SECOND;
    assert (pos + 64) * SECOND == n + 48_000 * 1_333_333 + 16_000;
    assert (pos + 192) * SECOND == n + 48_000 * 4_000_000;
  }
}
