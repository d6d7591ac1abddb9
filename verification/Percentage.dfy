/** A number of stable pods as a whole percentage (control/util.go), and what is
    left of the number when the percentage is read back. */
module Percentage {
  import opened Arithmetic

  /** Go's division of 32-bit integers. */
  function Quotient(a: int, b: int): int
    requires b > 0
  {
    if a >= 0 then a / b else -(-a / b)
  }

  /** `ParseIntegerAsPercentageIfPossible`; `whole` says that the batch's own size
      is given as "100%". The product is a 32-bit one. */
  function AsPercentage(stable: int, all: int, whole: bool): IntOrString {
    if stable >= all then Percent(100)
    else if stable <= 0 then Percent(0)
    else
      var percent := Percent(Quotient(Wrap32(stable * 100), all));
      if Scaled(percent, all, true) <= 0 && !whole then Percent(1) else percent
  }

  /** The number that the percentage stands for. */
  function ReadBack(stable: int, all: int, whole: bool): int {
    Scaled(AsPercentage(stable, all, whole), all, true)
  }

  /** Up to here the product does not overflow. */
  const LARGEST := 21474836

  predicate Fits(stable: int) {
    stable <= LARGEST
  }

  lemma {:induction false} PercentIsFloor(stable: int, all: int)
    requires 0 < stable < all && Fits(stable)
    ensures var p := Quotient(Wrap32(stable * 100), all);
      && p == stable * 100 / all && 0 <= p < 100
      && p * all <= 100 * stable < p * all + all
  {
    assert Wrap32(stable * 100) == stable * 100;
    var p := stable * 100 / all;
    assert stable * 100 == p * all + stable * 100 % all;
    Multiples(p, all);
  }

  /** `CeilDiv` is the least integer whose hundredfold reaches the product. */
  lemma {:induction false} CeilIs(product: int, k: int)
    requires 100 * k - 100 < product <= 100 * k
    ensures CeilDiv(product, 100) == k
  {
    CeilDivBounds(product, 100);
  }

  lemma {:induction false} Multiples(p: int, all: int)
    requires all > 0
    ensures 1 * all == all && 0 * all == 0
    ensures p >= 1 ==> p * all >= all
    ensures p >= 100 ==> p * all >= 100 * all
    ensures p <= -1 ==> p * all <= -all
  {
    if p >= 1 {
      assert (p - 1) * all >= 0;
    }
    if p >= 100 {
      assert (p - 100) * all >= 0;
    }
    NegativeProduct(p, all);
  }

  /** The percentage, the product it stands for, and what is read back. */
  lemma {:induction false} ReadBackIs(stable: int, all: int, whole: bool)
    requires 0 < stable < all && Fits(stable)
    ensures var p := stable * 100 / all;
      var product, r := p * all, ReadBack(stable, all, whole);
      && product <= stable * 100 < product + all && stable * 100 % all == stable * 100 - product
      && if product > 0 || whole then 100 * r - 100 < product <= 100 * r
         else product == 0 && 100 * r - 100 < all <= 100 * r
  {
    hide Wrap32;
    PercentIsFloor(stable, all);
    var p := stable * 100 / all;
    assert stable * 100 == p * all + stable * 100 % all;
    Multiples(p, all);
    CeilDivBounds(p * all, 100);
    CeilDivBounds(all, 100);
  }

  /** What is read back misses the number by less than one percent of all pods, and
      is at least one, unless the batch is the whole workload. */
  lemma {:induction false} ErrorBelowOnePercent(stable: int, all: int, whole: bool)
    requires 0 < stable < all && Fits(stable)
    ensures 100 * Abs(ReadBack(stable, all, whole) - stable) < all
    ensures !whole ==> ReadBack(stable, all, whole) >= 1
  {
    ReadBackIs(stable, all, whole);
  }

  /** The number is read back exactly if and only if the hundredfold leaves less
      than one hundred over, as it always does with at most one hundred pods. */
  lemma {:induction false} ExactlyWhen(stable: int, all: int, whole: bool)
    requires 0 < stable < all && Fits(stable)
    ensures ReadBack(stable, all, whole) == stable <==> stable * 100 % all < 100
    ensures all <= 100 ==> ReadBack(stable, all, whole) == stable
  {
    hide ReadBack;
    ReadBackIs(stable, all, whole);
  }

  lemma {:induction false} FloorMonotone(a: int, b: int, all: int)
    requires all > 0 && a <= b
    ensures a / all <= b / all
  {
    var k := b / all - a / all;
    assert b == b / all * all + b % all;
    assert a == a / all * all + a % all;
    assert k * all == b / all * all - a / all * all;
    NegativeProduct(k, all);
  }

  lemma {:induction false} MoreOfMore(p: int, q: int, all: int)
    requires p <= q && all >= 0
    ensures CeilDiv(p * all, 100) <= CeilDiv(q * all, 100)
  {
    assert (q - p) * all >= 0;
    assert (q - p) * all == q * all - p * all;
    CeilDivMonotone(p * all, q * all, 100);
  }

  lemma {:induction false} PercentBounds(stable: int, all: int, whole: bool)
    requires Fits(stable) && all > 0
    ensures var r := AsPercentage(stable, all, whole);
      r.Percent? && 0 <= r.percent <= 100
      && (r.percent == 100 <==> stable >= all)
      && (0 < stable < all ==>
            r.percent == stable * 100 / all || (r.percent == 1 && !whole && stable * 100 / all == 0))
  {
    hide Wrap32;
    if 0 < stable < all {
      PercentIsFloor(stable, all);
      var p := Quotient(Wrap32(stable * 100), all);
      Multiples(p, all);
      CeilDivBounds(p * all, 100);
    }
  }

  /** A larger number is never read back smaller. */
  lemma {:induction false} ReadBackMonotone(a: int, b: int, all: int, whole: bool)
    requires a <= b && Fits(b) && all > 0
    ensures ReadBack(a, all, whole) <= ReadBack(b, all, whole)
  {
    assert a <= 0 ==> AsPercentage(a, all, whole) == Percent(0);
    hide AsPercentage, CeilDiv;
    PercentBounds(a, all, whole);
    PercentBounds(b, all, whole);
    var p, q := AsPercentage(a, all, whole).percent, AsPercentage(b, all, whole).percent;
    FloorMonotone(a * 100, b * 100, all);
    assert p <= q by {
      AtLeastOne(b, all, whole);
    }
    MoreOfMore(p, q, all);
  }

  lemma {:induction false} AtLeastOne(b: int, all: int, whole: bool)
    requires 0 < b ==> Fits(b) && all > 0
    ensures 0 < b && !whole ==> AsPercentage(b, all, whole).Percent? && AsPercentage(b, all, whole).percent >= 1
  {
    hide Wrap32;
    if 0 < b < all && !whole {
      PercentIsFloor(b, all);
      var p := Quotient(Wrap32(b * 100), all);
      Multiples(p, all);
      assert p == 0 ==> CeilDiv(p * all, 100) == 0;
    }
  }

  /** The bound on the number is sharp: the next number turns negative. */
  lemma OverflowTurnsNegative(all: int)
    requires LARGEST + 1 < all <= 0x7FFF_FFFF
    ensures !Fits(LARGEST + 1)
    ensures Wrap32((LARGEST + 1) * 100) < 0
    ensures ReadBack(LARGEST + 1, all, true) <= 0
  {
    var x := Wrap32((LARGEST + 1) * 100);
    assert x == 2147483700 - 0x1_0000_0000;
    var q := -x / all;
    assert -x == q * all + -x % all;
    if q < 0 {
      NegativeProduct(q, all);
    }
    assert q * all >= 0;
    CeilDivBounds((-q) * all, 100);
    assert (-q) * all == -(q * all);
  }

  /** The comment in the source has 97 here. */
  lemma NinetyEightOfNinetyNine()
    ensures AsPercentage(98, 99, false) == Percent(98) && ReadBack(98, 99, false) == 98
  {
    assert 98 * 99 == 9702;
    CeilIs(98 * 99, 98);
  }
}
