/** Prices as a whole part and ticks; the number of ticks per unit is a parameter of the type. */
module TickPrices {
  import NarySearch

  datatype TickPrice = TickPrice(whole: int, ticks: int)

  /** Division that truncates towards zero, as in C. */
  function Quotient(a: int, b: nat): int
    requires b > 0
  {
    if a >= 0 then a / b else -(-a / b)
  }

  function Remainder(a: int, b: nat): int
    requires b > 0
  {
    a - Quotient(a, b) * b
  }

  /** The ticks are a proper part of a unit. */
  predicate Proper(t: TickPrice, tpu: nat) {
    0 <= t.ticks < tpu
  }

  function AsTicks(t: TickPrice, tpu: nat): int {
    tpu * t.whole + t.ticks
  }

  /** A price from any numbers of units and ticks: the ticks are brought into range. */
  function Make(whole: int, ticks: int, tpu: nat): (t: TickPrice)
    requires tpu > 0
    ensures Proper(t, tpu) && AsTicks(t, tpu) == tpu * whole + ticks
  {
    var quot := Quotient(ticks, tpu);
    var rem := Remainder(ticks, tpu);
    Division(ticks, tpu);
    if rem < 0 then
      Carry(whole + quot, tpu);
      Distribute(whole, quot, tpu);
      TickPrice(whole + quot - 1, rem + tpu)
    else
      Distribute(whole, quot, tpu);
      TickPrice(whole + quot, rem)
  }

  lemma Division(a: int, b: nat)
    requires b > 0
    ensures a == Quotient(a, b) * b + Remainder(a, b) && -(b as int) < Remainder(a, b) < b
    ensures (a >= 0 ==> Remainder(a, b) >= 0) && (a < 0 ==> Remainder(a, b) <= 0)
  {
    if a >= 0 {
      Euclid(a, b);
    } else {
      Euclid(-a, b);
    }
  }

  lemma Euclid(a: nat, b: nat)
    requires b > 0
    ensures 0 <= a - a / b * b < b
  {
    assert a == a / b * b + a % b;
  }

  lemma Carry(w: int, tpu: nat)
    ensures tpu * (w - 1) == tpu * w - tpu
  {
  }

  lemma Distribute(a: int, b: int, tpu: nat)
    ensures tpu * (a + b) == tpu * a + b * tpu
  {
  }

  function FromTicks(ticks: int, tpu: nat): TickPrice
    requires tpu > 0
  {
    Make(0, ticks, tpu)
  }

  /** A proper price is determined by its ticks, and every number of ticks is one. */
  lemma TicksBijection(a: TickPrice, b: TickPrice, tpu: nat)
    requires tpu > 0 && Proper(a, tpu) && Proper(b, tpu)
    ensures AsTicks(a, tpu) == AsTicks(b, tpu) <==> a == b
    ensures FromTicks(AsTicks(a, tpu), tpu) == a
  {
    Ordered(a, b, tpu);
    Ordered(b, a, tpu);
    var c := FromTicks(AsTicks(a, tpu), tpu);
    Ordered(a, c, tpu);
    Ordered(c, a, tpu);
  }

  function Plus(a: TickPrice, b: TickPrice, tpu: nat): TickPrice
    requires tpu > 0
  {
    Make(a.whole + b.whole, a.ticks + b.ticks, tpu)
  }

  function Minus(a: TickPrice, b: TickPrice, tpu: nat): TickPrice
    requires tpu > 0
  {
    Make(a.whole - b.whole, a.ticks - b.ticks, tpu)
  }

  function PlusTicks(a: TickPrice, ticks: int, tpu: nat): TickPrice
    requires tpu > 0
  {
    Make(a.whole, a.ticks + ticks, tpu)
  }

  /** Sums and differences of prices are those of their ticks. */
  lemma Additive(a: TickPrice, b: TickPrice, ticks: int, tpu: nat)
    requires tpu > 0
    ensures AsTicks(Plus(a, b, tpu), tpu) == AsTicks(a, tpu) + AsTicks(b, tpu)
    ensures AsTicks(Minus(a, b, tpu), tpu) == AsTicks(a, tpu) - AsTicks(b, tpu)
    ensures AsTicks(PlusTicks(a, ticks, tpu), tpu) == AsTicks(a, tpu) + ticks
    ensures Proper(Plus(a, b, tpu), tpu) && Proper(Minus(a, b, tpu), tpu) && Proper(PlusTicks(a, ticks, tpu), tpu)
  {
    assert tpu * (a.whole + b.whole) == tpu * a.whole + tpu * b.whole;
    assert tpu * (a.whole - b.whole) == tpu * a.whole - tpu * b.whole;
  }

  /** Adding and taking away again is the identity on proper prices. */
  lemma PlusMinus(a: TickPrice, b: TickPrice, tpu: nat)
    requires tpu > 0 && Proper(a, tpu)
    ensures Minus(Plus(a, b, tpu), b, tpu) == a
  {
    var s := Plus(a, b, tpu);
    Additive(a, b, 0, tpu);
    Additive(s, b, 0, tpu);
    TicksBijection(Minus(s, b, tpu), a, tpu);
  }

  predicate Greater(a: TickPrice, b: TickPrice) {
    if a.whole > b.whole then true
    else if a.whole == b.whole then a.ticks > b.ticks
    else false
  }

  /** The order of proper prices is the order of their ticks. */
  lemma Ordered(a: TickPrice, b: TickPrice, tpu: nat)
    requires tpu > 0 && Proper(a, tpu) && Proper(b, tpu)
    ensures Greater(a, b) <==> AsTicks(a, tpu) > AsTicks(b, tpu)
  {
    if a.whole > b.whole {
      Apart(a.whole, b.whole, tpu);
    } else if a.whole < b.whole {
      Apart(b.whole, a.whole, tpu);
    }
  }

  lemma Apart(a: int, b: int, tpu: nat)
    requires a > b
    ensures tpu * a >= tpu * b + tpu
  {
    var d := a - b - 1;
    assert a == b + 1 + d;
    Distribute(b + 1, d, tpu);
    Distribute(b, 1, tpu);
    Product(d, tpu);
  }

  lemma Product(d: nat, tpu: nat)
    ensures d * tpu >= 0
  {
  }

  /** The whole part, truncated towards zero. */
  function Truncated(r: real): int {
    if r >= 0.0 then r.Floor else -((-r).Floor)
  }

  /** The whole part; one unit down for negative numbers. */
  function WholeBelow(r: real): int {
    Truncated(r) - if r < 0.0 then 1 else 0
  }

  /** What the whole part leaves, in ticks. */
  function Part(r: real, tpu: nat): real {
    (r - WholeBelow(r) as real) * tpu as real
  }

  /** A price from a number. e is the range of exponents of the rounding function. */
  function FromReal(r: real, tpu: nat, e: nat): TickPrice
    requires tpu > 0
  {
    var ticks := NarySearch.Round(Part(r, tpu), e).Floor;
    if ticks == tpu then TickPrice(WholeBelow(r) + 1, 0) else TickPrice(WholeBelow(r), ticks)
  }

  /** A number becomes the nearest tick, halves upwards, whatever its sign. */
  lemma NearestTick(r: real, tpu: nat, e: nat)
    requires tpu > 0
    ensures var t := FromReal(r, tpu, e);
      Proper(t, tpu) && AsTicks(t, tpu) == (r * tpu as real + 0.5).Floor
  {
    hide Part, WholeBelow, NarySearch.Round;
    var ticks := NarySearch.Round(Part(r, tpu), e).Floor;
    PartRange(r, tpu);
    NarySearch.RoundNearest(Part(r, tpu), e);
    InRange(Part(r, tpu), ticks, tpu);
    PartSplit(r, tpu);
    Shifted(Part(r, tpu), WholeBelow(r) * tpu, ticks);
    Carry(WholeBelow(r) + 1, tpu);
  }

  lemma PartRange(r: real, tpu: nat)
    ensures 0.0 <= Part(r, tpu) <= tpu as real
  {
    var part := r - WholeBelow(r) as real;
    assert 0.0 <= part <= 1.0;
    hide WholeBelow;
    NotNegative(part, tpu as real);
    NotNegative(1.0 - part, tpu as real);
    Expanded(1.0, part, tpu as real);
  }

  lemma NotNegative(a: real, b: real)
    requires a >= 0.0 && b >= 0.0
    ensures a * b >= 0.0
  {
  }

  lemma PartSplit(r: real, tpu: nat)
    ensures r * tpu as real == Part(r, tpu) + (WholeBelow(r) * tpu) as real
  {
    var whole := WholeBelow(r);
    assert whole as real * tpu as real == (whole * tpu) as real;
    Expanded(r, whole as real, tpu as real);
  }

  /** A number near y that is whole lies between whole bounds of y. */
  lemma InRange(y: real, ticks: int, n: nat)
    requires 0.0 <= y <= n as real && -0.5 <= y - ticks as real <= 0.5 && (y - ticks as real == 0.5 ==> y < 0.0)
    ensures 0 <= ticks <= n && -0.5 <= y - ticks as real < 0.5
  {
  }

  lemma Expanded(a: real, b: real, c: real)
    ensures a * c == (a - b) * c + b * c
  {
  }

  lemma Shifted(y: real, n: int, ticks: int)
    requires -0.5 <= y - ticks as real < 0.5
    ensures (y + n as real + 0.5).Floor == ticks + n
  {
    var z := y + n as real + 0.5;
    assert (ticks + n) as real <= z < (ticks + n) as real + 1.0;
  }
}
