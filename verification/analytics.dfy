/** The average price of a user's bitcoin purchases, weighted by amount. Amounts are in units of
    10^-5 and prices in cents, the scales of their columns. */
module Analytics {
  import opened Common

  datatype Purchase = Purchase(amount: int, price: int)

  function Spent(ps: seq<Purchase>): int {
    if ps == [] then 0 else Spent(ps[..|ps| - 1]) + ps[|ps| - 1].amount * ps[|ps| - 1].price
  }

  function Bought(ps: seq<Purchase>): int {
    if ps == [] then 0 else Bought(ps[..|ps| - 1]) + ps[|ps| - 1].amount
  }

  /** The integer nearest to num / den: the one farther from zero on a tie, as toFixed picks. */
  function Rounded(num: int, den: int): int
    requires den > 0
  {
    if num >= 0 then (2 * num + den) / (2 * den) else -((-2 * num + den) / (2 * den))
  }

  /** The rounded quotient; None when it is not a finite number. */
  function Quotient(num: int, den: int): Option<int> {
    if den == 0 then None else Some(if den > 0 then Rounded(num, den) else Rounded(-num, -den))
  }

  /** A purchase costs its amount times its price, and purchases add up. */
  lemma {:induction false} SpentConcat(a: seq<Purchase>, b: seq<Purchase>)
    ensures Spent(a + b) == Spent(a) + Spent(b) && Bought(a + b) == Bought(a) + Bought(b)
    ensures |b| == 1 ==> Spent(b) == b[0].amount * b[0].price && Bought(b) == b[0].amount
    decreases |b|
  {
    if b == [] {
      assert a + b == a;
    } else {
      var last := b[|b| - 1];
      SpentConcat(a, b[..|b| - 1]);
      assert (a + b)[..|a + b| - 1] == a + b[..|b| - 1] && (a + b)[|a + b| - 1] == last;
    }
  }

  lemma TakeOut(a: seq<Purchase>, j: nat)
    requires j < |a|
    ensures multiset(a) == multiset(a[..j] + a[j + 1..]) + multiset{a[j]}
    ensures Spent(a) == Spent(a[..j] + a[j + 1..]) + a[j].amount * a[j].price
    ensures Bought(a) == Bought(a[..j] + a[j + 1..]) + a[j].amount
  {
    hide Spent, Bought;
    var front, p, back := a[..j], a[j], a[j + 1..];
    assert a == front + [p] + back;
    SpentConcat(front + [p], back);
    SpentConcat(front, [p]);
    SpentConcat(front, back);
  }

  /** The order of the purchases does not matter. */
  lemma {:induction false} SpentOrder(a: seq<Purchase>, b: seq<Purchase>)
    requires multiset(a) == multiset(b)
    ensures Spent(a) == Spent(b) && Bought(a) == Bought(b)
    decreases |b|
  {
    if b == [] {
      assert |multiset(a)| == |a| && |multiset(b)| == 0;
    } else {
      var last := |b| - 1;
      assert b[last] in multiset(a);
      var j :| 0 <= j < |a| && a[j] == b[last];
      hide Spent, Bought;
      TakeOut(a, j);
      TakeOut(b, last);
      assert multiset(a[..j] + a[j + 1..]) == multiset(a) - multiset{b[last]};
      assert multiset(b[..last] + b[last + 1..]) == multiset(b) - multiset{b[last]};
      SpentOrder(a[..j] + a[j + 1..], b[..last] + b[last + 1..]);
    }
  }

  /** One unit at 100 and three at 200 average 175. */
  lemma WeightedByAmount()
    ensures var ps := [Purchase(1, 100), Purchase(3, 200)];
            Quotient(Spent(ps), Bought(ps)) == Some(175)
  {
    SpentConcat([Purchase(1, 100)], [Purchase(3, 200)]);
    assert [Purchase(1, 100)] + [Purchase(3, 200)] == [Purchase(1, 100), Purchase(3, 200)];
    SpentConcat([], [Purchase(1, 100)]);
  }

  predicate PricesWithin(ps: seq<Purchase>, low: int, high: int) {
    forall i :: 0 <= i < |ps| ==> low <= ps[i].price <= high
  }

  predicate AmountsNotNegative(ps: seq<Purchase>) {
    forall i :: 0 <= i < |ps| ==> ps[i].amount >= 0
  }

  lemma CostBounds(amount: int, price: int, low: int, high: int)
    requires amount >= 0 && low <= price <= high
    ensures low * amount <= amount * price <= high * amount
  {
    assert amount * (price - low) >= 0 && amount * (high - price) >= 0;
  }

  lemma Distribute(k: int, x: int, y: int)
    ensures k * (x + y) == k * x + k * y
  {
  }

  lemma {:induction false} SpentBounds(ps: seq<Purchase>, low: int, high: int)
    requires AmountsNotNegative(ps) && PricesWithin(ps, low, high)
    ensures low * Bought(ps) <= Spent(ps) <= high * Bought(ps)
  {
    if ps != [] {
      SpentBounds(ps[..|ps| - 1], low, high);
      var p := ps[|ps| - 1];
      CostBounds(p.amount, p.price, low, high);
      Distribute(low, Bought(ps[..|ps| - 1]), p.amount);
      Distribute(high, Bought(ps[..|ps| - 1]), p.amount);
    }
  }

  lemma PositiveFactor(x: int, d: int)
    requires d > 0 && x * d > 0
    ensures x > 0
  {
  }

  /** Euclidean quotient bounds, from bounds on the dividend. */
  lemma QuotientWithin(x: int, d: int, low: int, high: int)
    requires d > 0 && low * d <= x < (high + 1) * d
    ensures low <= x / d <= high
  {
    var q := x / d;
    assert x == q * d + x % d;
    assert (q + 1 - low) * d == q * d + d - low * d;
    PositiveFactor(q + 1 - low, d);
    assert (high + 1 - q) * d == (high + 1) * d - q * d;
    PositiveFactor(high + 1 - q, d);
  }

  /** A quotient between two integers rounds to something between them. */
  lemma RoundedWithin(num: int, den: int, low: int, high: int)
    requires den > 0 && low * den <= num <= high * den
    ensures low <= Rounded(num, den) <= high
  {
    var d := 2 * den;
    if num >= 0 {
      assert low * d == 2 * (low * den) && (high + 1) * d == 2 * (high * den) + 2 * den;
      QuotientWithin(2 * num + den, d, low, high);
    } else {
      assert -high * d == -2 * (high * den) && (-low + 1) * d == -2 * (low * den) + 2 * den;
      QuotientWithin(-2 * num + den, d, -high, -low);
    }
  }

  /** getBTCAverage. None stands for a result that is not a finite number. */
  method GetBtcAverage(ps: seq<Purchase>) returns (average: Option<int>)
    ensures average == if ps == [] then Some(0) else Quotient(Spent(ps), Bought(ps))
    ensures forall low, high ::
              ps != [] && AmountsNotNegative(ps) && PricesWithin(ps, low, high) && average.Some? ==>
              low <= average.value <= high
  {
    if ps == [] { return Some(0); }
    var numerator, denominator := 0, 0;
    var i := 0;
    while i < |ps|
      invariant 0 <= i <= |ps|
      invariant numerator == Spent(ps[..i]) && denominator == Bought(ps[..i])
    {
      assert ps[..i + 1][..i] == ps[..i];
      numerator := numerator + ps[i].amount * ps[i].price;
      denominator := denominator + ps[i].amount;
      i := i + 1;
    }
    assert ps[..i] == ps;
    average := Quotient(numerator, denominator);
    forall low, high | AmountsNotNegative(ps) && PricesWithin(ps, low, high) && average.Some?
      ensures low <= average.value <= high
    {
      BoughtNotNegative(ps);
      SpentBounds(ps, low, high);
      RoundedWithin(numerator, denominator, low, high);
    }
  }

  lemma {:induction false} BoughtNotNegative(ps: seq<Purchase>)
    requires AmountsNotNegative(ps)
    ensures Bought(ps) >= 0
    ensures Bought(ps) == 0 <==> forall i :: 0 <= i < |ps| ==> ps[i].amount == 0
  {
    if ps != [] { BoughtNotNegative(ps[..|ps| - 1]); }
  }

  /** The rounded average is within half a cent of the exact one, and a tie goes away from zero. */
  lemma RoundedNearest(num: int, den: int)
    requires den > 0
    ensures num >= 0 ==> -den < 2 * (Rounded(num, den) * den - num) <= den
    ensures num < 0 ==> -den <= 2 * (Rounded(num, den) * den - num) < den
  {
    var x := if num >= 0 then 2 * num + den else -2 * num + den;
    var q := x / (2 * den);
    assert x == q * (2 * den) + x % (2 * den);
    assert q * (2 * den) == 2 * (q * den);
  }

  /** There is a quotient exactly when something was bought in all, and it is the nearest integer. */
  lemma QuotientNearest(num: int, den: int)
    ensures Quotient(num, den).Some? <==> den != 0
    ensures den > 0 ==> -den <= 2 * (Quotient(num, den).value * den - num) <= den
    ensures den < 0 ==> den <= 2 * (Quotient(num, den).value * den - num) <= -den
  {
    hide Rounded;
    if den > 0 { RoundedNearest(num, den); }
    if den < 0 { RoundedNearest(-num, -den); }
  }
}
