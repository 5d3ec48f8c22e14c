/** Exponential full-jitter backoff of the dispatch worker and of the outbox relay. */
module Backoff {
  import opened Common

  function Pow2(n: nat): (p: nat)
    ensures p >= 1
  {
    if n == 0 then 1 else 2 * Pow2(n - 1)
  }

  function Min(x: int, y: int): int {
    if x <= y then x else y
  }

  /** The constructor's bounds for the relay; the worker asks for base >= 1 ms in addition. */
  predicate ValidBounds(base: int, cap: int) {
    0 < base <= cap <= DAY
  }

  predicate ValidDeliveryBounds(base: int, cap: int) {
    ValidBounds(base, cap) && base >= MILLISECOND
  }

  /** min(cap, base * 2^(attempt - 1)); attempt 0, which no caller passes, counts as the first. */
  function Ceiling(base: int, cap: int, attempt: nat): int {
    Min(cap, base * Pow2(if attempt == 0 then 0 else attempt - 1))
  }

  lemma {:induction false} Pow2Monotone(m: nat, n: nat)
    requires m <= n
    ensures Pow2(m) <= Pow2(n)
    decreases n - m
  {
    if m == n {
    } else {
      Pow2Monotone(m + 1, n);
    }
  }

  lemma ScaleMonotone(base: int, x: int, y: int)
    requires base > 0 && x <= y
    ensures base * x <= base * y
  {
  }

  lemma Doubled(base: int, n: nat)
    ensures base * Pow2(n + 1) == 2 * (base * Pow2(n))
  {
    assert base * Pow2(n + 1) == base * (2 * Pow2(n));
  }

  lemma CapReached(base: int, cap: int, n: nat, attempt: nat)
    requires base > 0 && n < attempt && base * Pow2(n) >= cap
    ensures Ceiling(base, cap, attempt) == cap
  {
    Pow2Monotone(n, attempt - 1);
    ScaleMonotone(base, Pow2(n), Pow2(attempt - 1));
  }

  lemma DaysFitInFortySevenDoublings(base: int, n: nat)
    requires base > 0 && base * Pow2(n) <= DAY
    ensures n <= 46
  {
    if n >= 47 {
      Pow2Monotone(47, n);
      assert Pow2(47) == 0x8000_0000_0000 by { PowersOfTwo(); }
      ScaleMonotone(Pow2(n), 1, base);
    }
  }

  lemma PowersOfTwo()
    ensures Pow2(47) == 0x8000_0000_0000
  {
    assert Pow2(8) == 0x100;
    assert Pow2(16) == 0x1_0000;
    assert Pow2(24) == 0x100_0000;
    assert Pow2(32) == 0x1_0000_0000;
    assert Pow2(40) == 0x100_0000_0000;
  }

  /**
   The doubling loop. It computes the closed form, never leaves the cap (so int64 cannot overflow), and
   ends after at most 47 rounds whatever the attempt number is.
   */
  method Maximum(base: int, cap: int, attempt: nat) returns (maximum: int, rounds: nat)
    requires ValidBounds(base, cap) && attempt <= MAX_UINT32
    ensures maximum == Ceiling(base, cap, attempt)
    ensures base <= maximum <= cap
    ensures rounds <= 47
  {
    maximum := base;
    rounds := 0;
    var exponent := 1;
    while exponent < attempt && maximum < cap
      invariant 1 <= exponent && (exponent <= attempt || exponent == 1)
      invariant rounds == exponent - 1 <= 47
      invariant maximum == base * Pow2(exponent - 1)
      invariant base <= maximum <= cap
    {
      DaysFitInFortySevenDoublings(base, exponent - 1);
      rounds := rounds + 1;
      Doubled(base, exponent - 1);
      if maximum > cap / 2 {
        CapReached(base, cap, exponent, attempt);
        maximum := cap;
        break;
      }
      maximum := 2 * maximum;
      exponent := exponent + 1;
      DaysFitInFortySevenDoublings(base, exponent - 1);
    }
    if maximum >= cap {
      if exponent < attempt && maximum == base * Pow2(exponent - 1) {
        CapReached(base, cap, exponent - 1, attempt);
      }
      maximum := cap;
    }
  }

  lemma {:induction false} CeilingIsMonotone(base: int, cap: int, m: nat, n: nat)
    requires ValidBounds(base, cap) && m <= n
    ensures Ceiling(base, cap, m) <= Ceiling(base, cap, n)
  {
    var i, j := if m == 0 then 0 else m - 1, if n == 0 then 0 else n - 1;
    Pow2Monotone(i, j);
    ScaleMonotone(base, Pow2(i), Pow2(j));
  }

  /** A random number generator: below the bound it is given, and never negative. */
  ghost predicate LegalDraw(draw: int -> int) {
    forall n :: n > 0 ==> 0 <= draw(n) < n
  }

  /** Full jitter: every delay from the least to the ceiling is the one some draw yields, for worker and relay alike. */
  lemma EveryDelayIsDrawn(least: int, ceiling: int, delay: int) returns (draw: int -> int)
    requires least <= delay <= ceiling
    ensures LegalDraw(draw) && delay == least + draw(ceiling - least + 1)
  {
    draw := n => if delay - least < n then delay - least else 0;
  }

  /** draw is the random number below the bound the generator was given. */
  method NextDeliveryDelay(base: int, cap: int, attempt: nat, draw: int -> int) returns (delay: int)
    requires ValidDeliveryBounds(base, cap) && attempt <= MAX_UINT32
    requires LegalDraw(draw)
    ensures delay == MILLISECOND + draw(Ceiling(base, cap, attempt) - MILLISECOND + 1)
    ensures MILLISECOND <= delay <= Ceiling(base, cap, attempt)
    ensures 0 < delay <= DAY
  {
    var maximum, _ := Maximum(base, cap, attempt);
    delay := MILLISECOND + draw(maximum - MILLISECOND + 1);
  }

  method NextOutboxDelay(base: int, cap: int, attempt: nat, draw: int -> int) returns (delay: int)
    requires ValidBounds(base, cap) && attempt <= MAX_UINT32
    requires LegalDraw(draw)
    ensures delay == draw(Ceiling(base, cap, attempt) + 1)
    ensures 0 <= delay <= Ceiling(base, cap, attempt)
    ensures 0 <= delay <= DAY
  {
    var maximum, _ := Maximum(base, cap, attempt);
    delay := draw(maximum + 1);
  }
}
