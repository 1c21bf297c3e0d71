/** Rounding at compile time: floor and ceil by an eight-way search, over the reals. */
module NarySearch {

  function Power(x: real, n: nat): real {
    if n == 0 then 1.0 else x * Power(x, n - 1)
  }

  lemma NonZero(a: real, b: real)
    requires a != 0.0 && b != 0.0
    ensures a * b != 0.0
  {
    assert a * b / b == a;
  }

  /** Raising to a power by squaring. */
  function Squaring(x: real, n: nat): real {
    if n == 0 then 1.0
    else if n == 1 then x
    else if n % 2 == 1 then x * Squaring(x, n - 1)
    else Squaring(x, n / 2) * Squaring(x, n / 2)
  }

  /** Raising to an integer power. */
  function IPow(x: real, n: int): real
    requires n < 0 ==> x != 0.0
  {
    if n >= 0 then Squaring(x, n)
    else
      PowerNonZero(x, -n);
      SquaringIsPower(x, -n);
      1.0 / Squaring(x, -n)
  }

  lemma {:induction false} PowerNonZero(x: real, n: nat)
    requires x != 0.0
    ensures Power(x, n) != 0.0
  {
    if n > 0 {
      PowerNonZero(x, n - 1);
      NonZero(x, Power(x, n - 1));
    }
  }

  lemma {:induction false} PowerAdd(x: real, m: nat, n: nat)
    ensures Power(x, m + n) == Power(x, m) * Power(x, n)
  {
    if m == 0 {
    } else {
      PowerAdd(x, m - 1, n);
      Associative(x, Power(x, m - 1), Power(x, n));
    }
  }

  lemma Associative(a: real, b: real, c: real)
    ensures a * (b * c) == a * b * c
  {
  }

  lemma {:induction false} SquaringIsPower(x: real, n: nat)
    ensures Squaring(x, n) == Power(x, n)
  {
    if n == 1 {
      assert Power(x, 1) == x * Power(x, 0);
    } else if n > 1 && n % 2 == 1 {
      SquaringIsPower(x, n - 1);
    } else if n > 1 {
      SquaringIsPower(x, n / 2);
      PowerAdd(x, n / 2, n / 2);
      assert n == n / 2 + n / 2;
      hide Power;
    }
  }

  /** Squaring computes the power; a negative exponent the power of the inverse. */
  lemma IPowIsPower(x: real, n: int)
    requires n < 0 ==> x != 0.0
    ensures n >= 0 ==> IPow(x, n) == Power(x, n)
    ensures n < 0 ==> IPow(x, n) * Power(x, -n) == 1.0
  {
    hide Power, Squaring;
    SquaringIsPower(x, if n < 0 then -n else n);
    if n < 0 {
      PowerNonZero(x, -n);
      Inverse(Power(x, -n));
    }
  }

  lemma Inverse(a: real)
    requires a != 0.0
    ensures 1.0 / a * a == 1.0
  {
  }

  /** A whole number. */
  predicate Whole(x: real) {
    x == x.Floor as real
  }

  predicate IsFloor(r: real, x: real) {
    Whole(r) && r <= x < r + 1.0
  }

  predicate IsCeil(r: real, x: real) {
    Whole(r) && r - 1.0 < x <= r
  }

  /** The number of steps of size inc that fit between two numbers. */
  function Steps(span: real, inc: real): (n: nat)
    requires span >= 0.0 && inc > 0.0
  {
    FloorNonNegative(span, inc);
    (span / inc).Floor
  }

  lemma FloorNonNegative(span: real, inc: real)
    requires span >= 0.0 && inc > 0.0
    ensures (span / inc).Floor >= 0
  {
    assert span / inc >= 0.0;
  }

  lemma Divided(q: real, inc: real, span: real)
    requires inc > 0.0 && q * inc == span
    ensures span / inc == q
  {
  }

  lemma OneStep(span: real, inc: real)
    requires span >= inc > 0.0
    ensures Steps(span - inc, inc) == Steps(span, inc) - 1
  {
    var q := span / inc;
    assert q * inc == span;
    assert (q - 1.0) * inc == span - inc;
    Divided(q - 1.0, inc, span - inc);
  }

  lemma {:induction false} PowerWhole(n: nat)
    ensures Power(2.0, n) >= 1.0 && Whole(Power(2.0, n))
  {
    if n > 0 {
      PowerWhole(n - 1);
      assert Power(2.0, n) == (2 * Power(2.0, n - 1).Floor) as real;
    }
  }

  /** An increment is a power of two: a step of an eighth is one too. */
  lemma Eighth(inc: real, k: nat)
    requires inc == Power(2.0, k) && inc >= 8.0
    ensures k >= 3 && inc / 8.0 == Power(2.0, k - 3) && Whole(inc / 8.0) && inc / 8.0 >= 1.0
  {
    if k < 3 {
      Small(k);
    }
    PowerWhole(k - 3);
    PowerAdd(2.0, 3, k - 3);
    Three();
  }

  lemma Three()
    ensures Power(2.0, 3) == 8.0
  {
    assert Power(2.0, 1) == 2.0 * Power(2.0, 0);
    assert Power(2.0, 2) == 2.0 * Power(2.0, 1);
  }

  lemma Small(k: nat)
    requires k < 3
    ensures Power(2.0, k) <= 4.0
  {
    assert Power(2.0, 1) == 2.0 * Power(2.0, 0);
    assert Power(2.0, 2) == 2.0 * Power(2.0, 1);
  }

  lemma Half(inc: real, k: nat)
    requires inc == Power(2.0, k) && inc > 1.0
    ensures k >= 1 && inc / 2.0 == Power(2.0, k - 1)
  {
  }

  lemma WholeSum(a: real, b: real)
    requires Whole(a) && Whole(b)
    ensures Whole(a + b) && Whole(a - b)
  {
    IntSum(a.Floor, b.Floor);
    IntSum(a.Floor, -b.Floor);
  }

  lemma IntSum(i: int, j: int)
    ensures i as real + j as real == (i + j) as real && Whole((i + j) as real)
  {
  }

  /** Some whole steps of whole size lead from a whole number to a whole number. */
  lemma WholeSteps(a: real, b: real)
    requires Whole(a) && Whole(b)
    ensures Whole(a + b) && Whole(a + b * 2.0) && Whole(a + b * 3.0) && Whole(a + b * 4.0)
    ensures Whole(a + b * 5.0) && Whole(a + b * 6.0) && Whole(a + b * 7.0)
    ensures Whole(a - b) && Whole(a - b * 2.0) && Whole(a - b * 3.0) && Whole(a - b * 4.0)
    ensures Whole(a - b * 5.0) && Whole(a - b * 6.0) && Whole(a - b * 7.0)
  {
    hide Whole;
    WholeSum(a, b);
    WholeSum(b, b);
    WholeSum(b * 2.0, b);
    WholeSum(b * 3.0, b);
    WholeSum(b * 4.0, b);
    WholeSum(b * 5.0, b);
    WholeSum(b * 6.0, b);
    WholeSum(a, b * 2.0);
    WholeSum(a, b * 3.0);
    WholeSum(a, b * 4.0);
    WholeSum(a, b * 5.0);
    WholeSum(a, b * 6.0);
    WholeSum(a, b * 7.0);
  }

  /** Binary search for the last steps. */
  function Floor2(x: real, guess: real, inc: real, ghost k: nat): (r: real)
    requires inc == Power(2.0, k) && guess <= x && Whole(guess)
    ensures IsFloor(r, x)
    decreases k, Steps(x - guess, PowerOf(k))
  {
    PowerWhole(k);
    WholeSum(guess, inc);
    if guess + inc <= x then
      OneStep(x - guess, inc);
      Floor2(x, guess + inc, inc, k)
    else if inc <= 1.0 then guess
    else
      Half(inc, k);
      Floor2(x, guess, inc / 2.0, k - 1)
  }

  /** The positive increment of a step. */
  ghost function PowerOf(k: nat): (inc: real)
    ensures inc == Power(2.0, k) && inc > 0.0
  {
    PowerWhole(k);
    Power(2.0, k)
  }

  /** Eight-way search: the floor of x from a whole guess below it. */
  function FloorFrom(x: real, guess: real, inc: real, ghost k: nat): (r: real)
    requires inc == Power(2.0, k) && guess <= x && Whole(guess)
    ensures IsFloor(r, x)
    decreases k, Steps(x - guess, PowerOf(k))
  {
    PowerWhole(k);
    if inc < 8.0 then Floor2(x, guess, inc, k)
    else
      Eighth(inc, k);
      WholeSum(guess, inc);
      WholeSteps(guess, inc / 8.0);
      if guess + inc <= x then
        OneStep(x - guess, inc);
        FloorFrom(x, guess + inc, inc, k)
      else if guess + inc / 8.0 * 7.0 <= x then FloorFrom(x, guess + inc / 8.0 * 7.0, inc / 8.0, k - 3)
      else if guess + inc / 8.0 * 6.0 <= x then FloorFrom(x, guess + inc / 8.0 * 6.0, inc / 8.0, k - 3)
      else if guess + inc / 8.0 * 5.0 <= x then FloorFrom(x, guess + inc / 8.0 * 5.0, inc / 8.0, k - 3)
      else if guess + inc / 8.0 * 4.0 <= x then FloorFrom(x, guess + inc / 8.0 * 4.0, inc / 8.0, k - 3)
      else if guess + inc / 8.0 * 3.0 <= x then FloorFrom(x, guess + inc / 8.0 * 3.0, inc / 8.0, k - 3)
      else if guess + inc / 8.0 * 2.0 <= x then FloorFrom(x, guess + inc / 8.0 * 2.0, inc / 8.0, k - 3)
      else if guess + inc / 8.0 <= x then FloorFrom(x, guess + inc / 8.0, inc / 8.0, k - 3)
      else FloorFrom(x, guess, inc / 8.0, k - 3)
  }

  /** The number of steps down to x. */
  ghost function Above(x: real, guess: real, k: nat): nat {
    if guess >= x then Steps(guess - x, PowerOf(k)) else 0
  }

  function Ceil2(x: real, guess: real, dec: real, ghost k: nat): (r: real)
    requires dec == Power(2.0, k) && Whole(guess)
    ensures if guess >= x then IsCeil(r, x) else r == guess
    decreases k, Above(x, guess, k)
  {
    PowerWhole(k);
    WholeSum(guess, dec);
    if guess - dec >= x then
      OneStep(guess - x, dec);
      Ceil2(x, guess - dec, dec, k)
    else if dec <= 1.0 then guess
    else
      Half(dec, k);
      Ceil2(x, guess, dec / 2.0, k - 1)
  }

  /** Eight-way search: the ceiling of x from a whole guess above it. A guess below x, from which
      no step leads up, is the result itself. */
  function CeilFrom(x: real, guess: real, dec: real, ghost k: nat): (r: real)
    requires dec == Power(2.0, k) && Whole(guess)
    ensures if guess >= x then IsCeil(r, x) else r == guess
    decreases k, Above(x, guess, k)
  {
    PowerWhole(k);
    if dec < 8.0 then Ceil2(x, guess, dec, k)
    else
      Eighth(dec, k);
      WholeSum(guess, dec);
      WholeSteps(guess, dec / 8.0);
      if guess - dec >= x then
        OneStep(guess - x, dec);
        CeilFrom(x, guess - dec, dec, k)
      else if guess - dec / 8.0 * 7.0 >= x then CeilFrom(x, guess - dec / 8.0 * 7.0, dec / 8.0, k - 3)
      else if guess - dec / 8.0 * 6.0 >= x then CeilFrom(x, guess - dec / 8.0 * 6.0, dec / 8.0, k - 3)
      else if guess - dec / 8.0 * 5.0 >= x then CeilFrom(x, guess - dec / 8.0 * 5.0, dec / 8.0, k - 3)
      else if guess - dec / 8.0 * 4.0 >= x then CeilFrom(x, guess - dec / 8.0 * 4.0, dec / 8.0, k - 3)
      else if guess - dec / 8.0 * 3.0 >= x then CeilFrom(x, guess - dec / 8.0 * 3.0, dec / 8.0, k - 3)
      else if guess - dec / 8.0 * 2.0 >= x then CeilFrom(x, guess - dec / 8.0 * 2.0, dec / 8.0, k - 3)
      else if guess - dec / 8.0 >= x then CeilFrom(x, guess - dec / 8.0, dec / 8.0, k - 3)
      else CeilFrom(x, guess, dec / 8.0, k - 3)
  }

  /** The first increment for numbers with exponents up to e; e is 1023 for a double. */
  function Top(e: nat): (t: real)
    ensures t == Power(2.0, e) && t >= 1.0 && Whole(t)
  {
    IPowIsPower(2.0, e);
    PowerWhole(e);
    IPow(2.0, e)
  }

  function FloorAt(x: real, e: nat): (r: real)
    requires x >= 0.0
    ensures IsFloor(r, x)
  {
    FloorFrom(x, 0.0, Top(e), e)
  }

  function CeilAt(x: real, e: nat): (r: real)
    requires x >= 0.0
    ensures if x <= Top(e) then IsCeil(r, x) else r == Top(e)
  {
    CeilFrom(x, Top(e), Top(e), e)
  }

  /** Negative numbers are rounded by way of their opposite. */
  function Floor(x: real, e: nat): real {
    if x < 0.0 then -CeilAt(-x, e) else FloorAt(x, e)
  }

  function Ceil(x: real, e: nat): real {
    if x < 0.0 then -FloorAt(-x, e) else CeilAt(x, e)
  }

  lemma Opposite(r: real)
    requires Whole(r)
    ensures Whole(-r)
  {
    assert -r == (-(r.Floor)) as real;
  }

  /** The floor is the true floor of every number but those below the range of the search. */
  lemma FloorIff(x: real, e: nat)
    ensures IsFloor(Floor(x, e), x) <==> x >= -Top(e)
  {
    hide Top, FloorAt, CeilAt;
    if x < 0.0 {
      if -x <= Top(e) {
        Opposite(CeilAt(-x, e));
      }
    }
  }

  /** The ceiling is the true ceiling of every number but those above the range of the search. */
  lemma CeilIff(x: real, e: nat)
    ensures IsCeil(Ceil(x, e), x) <==> x <= Top(e)
  {
    hide Top, FloorAt, CeilAt;
    if x < 0.0 {
      Opposite(FloorAt(-x, e));
    }
  }

  function Round(x: real, e: nat): real {
    if x >= 0.0 then Floor(x + 0.5, e) else Ceil(x - 0.5, e)
  }

  /** Rounding is to the nearest whole number, halves away from zero, for every number. */
  lemma RoundNearest(x: real, e: nat)
    ensures var r := Round(x, e);
      && Whole(r) && -0.5 <= x - r <= 0.5
      && (x - r == 0.5 ==> x < 0.0) && (x - r == -0.5 ==> x >= 0.0)
  {
    hide Top, Floor, Ceil;
    if x >= 0.0 {
      FloorIff(x + 0.5, e);
      TopPositive(e);
    } else {
      CeilIff(x - 0.5, e);
      TopPositive(e);
    }
  }

  lemma TopPositive(e: nat)
    ensures Top(e) >= 1.0
  {
  }
}
