/** Natural numbers as JavaScript holds them: `Number` applied to a run of decimal digits rounds
    to the nearest double, ties to even, and to Infinity from 2^1024 on. */
module Doubles {
  const TWO52: nat := 4503599627370496
  const TWO53: nat := 9007199254740992

  function Pow2(k: nat): (p: nat)
    ensures p >= 1
  {
    if k == 0 then 1 else 2 * Pow2(k - 1)
  }

  /** The distance between neighbouring doubles around `n`: a power of two. */
  function Ulp(n: nat): (u: nat)
    ensures u >= 1 && n < TWO53 * u && (n >= TWO53 ==> TWO52 * u <= n)
    decreases n
  {
    if n < TWO53 then 1 else 2 * Ulp(n / 2)
  }

  /** Rounding to the nearest multiple of the distance, ties to the even one. */
  function Rounded(n: nat): nat {
    var u := Ulp(n);
    (if GoesUp(n / u, n % u, u) then n / u + 1 else n / u) * u
  }

  predicate GoesUp(q: nat, rest: nat, u: nat) { 2 * rest > u || (2 * rest == u && q % 2 == 1) }

  function Limit(): nat { Pow2(1024) }

  datatype Double = Finite(value: nat) | Infinite

  function ToDouble(n: nat): Double { if Rounded(n) < Limit() then Finite(Rounded(n)) else Infinite }

  predicate IsFinite(n: nat) { Rounded(n) < Limit() }

  /** What Math.sign makes of a difference: a sign, or NaN. */
  datatype Verdict = Sign(value: int) | NaN

  function SignOf(n: int): int { if n < 0 then -1 else if n > 0 then 1 else 0 }

  /** `Math.sign(Number(left) - Number(right))`; the difference of two infinities is NaN. */
  function Difference(left: nat, right: nat): Verdict {
    match (ToDouble(left), ToDouble(right))
    case (Finite(x), Finite(y)) => Sign(SignOf(x - y))
    case (Finite(_), Infinite) => Sign(-1)
    case (Infinite, Finite(_)) => Sign(1)
    case (Infinite, Infinite) => NaN
  }

  // ----- Rounding -----

  lemma Quotient(n: nat, u: nat)
    requires u >= 1
    ensures n / u * u + n % u == n && n % u < u && (n / u + 1) * u == n / u * u + u
  {
  }

  lemma RoundedIsNear(n: nat)
    ensures var u := Ulp(n);
            var q := n / u;
            && q * u <= n < (q + 1) * u == q * u + u && q < TWO53 && (n >= TWO53 ==> q >= TWO52)
            && Rounded(n) == if GoesUp(q, n % u, u) then (q + 1) * u else q * u
  {
    hide Ulp, GoesUp;
    var u := Ulp(n);
    Quotient(n, u);
    QuotientIsBounded(n, u, n / u);
  }

  lemma QuotientIsBounded(n: nat, u: nat, q: nat)
    requires q * u <= n < q * u + u && n < TWO53 * u && (n >= TWO53 ==> TWO52 * u <= n)
    ensures q < TWO53 && (n >= TWO53 ==> q >= TWO52)
  {
    if q >= TWO53 {
      MultiplyKeepsOrder(TWO53, q, u);
    }
    if n >= TWO53 && q + 1 <= TWO52 {
      MultiplyKeepsOrder(q + 1, TWO52, u);
    }
  }

  lemma MultiplyKeepsOrder(x: nat, y: nat, u: nat)
    requires x <= y
    ensures x * u <= y * u
  {
  }

  /** Numbers up to 2^53 are held exactly. */
  lemma SmallIsExact(n: nat)
    requires n <= TWO53
    ensures Rounded(n) == n
  {
    if n == TWO53 {
      assert Ulp(n) == 2 * Ulp(TWO52) == 2;
    }
  }

  lemma {:induction false} UlpGrows(m: nat, n: nat)
    requires m <= n
    ensures Ulp(m) == Ulp(n) || 2 * Ulp(m) <= Ulp(n)
    decreases n
  {
    if m >= TWO53 {
      UlpGrows(m / 2, n / 2);
    }
  }

  /** Rounding never turns an order around. */
  lemma RoundingIsMonotone(m: nat, n: nat)
    requires m <= n
    ensures Rounded(m) <= Rounded(n)
  {
    hide Rounded, GoesUp;
    RoundedIsNear(m);
    RoundedIsNear(n);
    UlpGrows(m, n);
    var u, v := Ulp(m), Ulp(n);
    if u == v {
      SameUlpIsMonotone(m, n);
    } else {
      assert n >= TWO53;
      MultiplyKeepsOrder(m / u + 1, TWO53, u);
      MultiplyKeepsOrder(m / u, TWO53, u);
      MultiplyKeepsOrder(TWO52, n / v, v);
      MultiplyKeepsOrder(TWO52, n / v + 1, v);
    }
  }

  function Quot(n: nat): nat { n / Ulp(n) }

  /** The multiple of the distance at or below `n`. */
  function Below(n: nat): nat { Quot(n) * Ulp(n) }

  lemma RoundedFromBelow(n: nat)
    ensures Below(n) <= n < Below(n) + Ulp(n)
    ensures Rounded(n) == if GoesUp(Quot(n), n - Below(n), Ulp(n)) then Below(n) + Ulp(n) else Below(n)
  {
    hide Ulp, GoesUp;
    RoundedIsNear(n);
    Quotient(n, Ulp(n));
  }

  lemma BelowIsOrdered(m: nat, n: nat)
    requires m <= n && Ulp(m) == Ulp(n)
    ensures Quot(m) <= Quot(n) && (Quot(m) == Quot(n) ==> Below(m) == Below(n))
    ensures Quot(m) < Quot(n) ==> Below(m) + Ulp(n) <= Below(n)
  {
    hide Ulp;
    RoundedIsNear(m);
    RoundedIsNear(n);
    QuotientsAreOrdered(m, n, Ulp(m), Quot(m), Quot(n));
  }

  lemma QuotientsAreOrdered(m: nat, n: nat, u: nat, p: nat, q: nat)
    requires m <= n && p * u <= m < p * u + u && q * u <= n < q * u + u
    ensures p < q ==> p * u + u <= q * u
    ensures p <= q
  {
    if q < p {
      MultiplyKeepsOrder(q + 1, p, u);
    } else if p < q {
      MultiplyKeepsOrder(p + 1, q, u);
    }
  }

  lemma SameUlpIsMonotone(m: nat, n: nat)
    requires m <= n && Ulp(m) == Ulp(n)
    ensures Rounded(m) <= Rounded(n)
  {
    hide Ulp, Rounded, GoesUp, Below, Quot;
    RoundedFromBelow(m);
    RoundedFromBelow(n);
    BelowIsOrdered(m, n);
    NearestIsMonotone(Quot(m), Quot(n), m - Below(m), n - Below(n), Ulp(m), Below(m), Below(n));
  }

  lemma NearestIsMonotone(p: nat, q: nat, x: nat, y: nat, u: nat, down: nat, below: nat)
    requires p <= q && down + x <= below + y && (p == q ==> down == below) && (p < q ==> down + u <= below)
    ensures (if GoesUp(p, x, u) then down + u else down) <= (if GoesUp(q, y, u) then below + u else below)
  {
  }

  /** So a difference that has a sign other than zero has the right one. */
  lemma DifferenceIsRight(m: nat, n: nat)
    ensures m == n ==> Difference(m, n) == if IsFinite(m) then Sign(0) else NaN
    ensures m < n ==> Difference(m, n) == Sign(-1) || ToDouble(m) == ToDouble(n)
    ensures m > n ==> Difference(m, n) == Sign(1) || ToDouble(m) == ToDouble(n)
  {
    hide Rounded;
    if m < n {
      RoundingIsMonotone(m, n);
    } else if n < m {
      RoundingIsMonotone(n, m);
    }
  }

  // ----- Overflow -----

  function Pow10(k: nat): (p: nat)
    ensures p >= 1
  {
    if k == 0 then 1 else 10 * Pow10(k - 1)
  }

  /** 10^3 < 2^10 and 10 > 2^3, a power at a time. */
  lemma {:induction false} TenAgainstTwo(k: nat)
    ensures Pow10(k) >= Pow2(3 * k)
    ensures Pow10(3 * k) <= Pow2(10 * k)
    decreases k
  {
    if k > 0 {
      TenAgainstTwo(k - 1);
      PowersAdd(3, 3 * (k - 1));
      PowersAdd(10, 10 * (k - 1));
      ThreeMoreZeros(3 * (k - 1));
      EightAndMore();
    }
  }

  lemma ThreeMoreZeros(k: nat)
    ensures Pow10(k + 3) == 1000 * Pow10(k)
  {
    assert Pow10(k + 2) == 10 * Pow10(k + 1);
  }

  lemma EightAndMore()
    ensures Pow2(3) == 8 && Pow2(10) == 1024
  {
    assert Pow2(5) == 32;
  }

  lemma {:induction false} PowersAdd(j: nat, k: nat)
    ensures Pow2(j + k) == Pow2(j) * Pow2(k)
    decreases j
  {
    if j > 0 {
      PowersAdd(j - 1, k);
    }
  }

  /** A number of at most 300 digits is finite. */
  lemma ShortNumbersAreFinite(n: nat)
    requires n < Pow10(300)
    ensures IsFinite(n)
  {
    hide Pow10, Pow2, Rounded;
    TenAgainstTwo(100);
    RoundedAtMostDoubles(n);
    PowersAdd(24, 1000);
    LargePower();
  }

  lemma LargePower()
    ensures Pow2(24) >= 2
  {
    hide Pow2;
    PowersAdd(1, 23);
    assert Pow2(1) >= 2 by {
      PowerOfOne();
    }
    MultiplyKeepsOrder(1, Pow2(23), Pow2(1));
  }

  lemma PowerOfOne()
    ensures Pow2(1) == 2
  {
  }

  lemma RoundedAtMostDoubles(n: nat)
    ensures Rounded(n) <= 2 * n
  {
    if n <= TWO53 {
      SmallIsExact(n);
    } else {
      RoundedIsNear(n);
      var u, q := Ulp(n), n / Ulp(n);
      MultiplyKeepsOrder(1, q, u);
      assert (q + 1) * u == q * u + u;
    }
  }

  /** 10^342 is Infinity. */
  lemma LongNumbersOverflow(n: nat)
    requires n >= Pow10(342)
    ensures !IsFinite(n)
  {
    hide Pow10, Pow2, Rounded;
    TenAgainstTwo(342);
    PowersAdd(2, 1024);
    RoundedAtLeastHalves(n);
    FourTimes();
  }

  lemma FourTimes()
    ensures Pow2(2) == 4
  {
  }

  lemma RoundedAtLeastHalves(n: nat)
    ensures 2 * Rounded(n) >= n
  {
    if n <= TWO53 {
      SmallIsExact(n);
    } else {
      RoundedIsNear(n);
      var u, q := Ulp(n), n / Ulp(n);
      MultiplyKeepsOrder(1, q, u);
      assert (q + 1) * u == q * u + u;
    }
  }

  lemma LimitIsLarge()
    ensures Limit() > TWO53
  {
    hide Pow2;
    EightAndMore();
    PowersAdd(10, 10);
    PowersAdd(20, 20);
    PowersAdd(40, 10);
    PowersAdd(50, 10);
    PowersAdd(60, 964);
    MultiplyKeepsOrder(1, Pow2(964), Pow2(60));
  }
}
