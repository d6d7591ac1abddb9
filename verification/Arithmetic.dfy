/** Integer arithmetic shared by the controllers: the `IntOrString` values of
    the Kubernetes API, rounding, and the 32-bit width where it shows. */
module Arithmetic {

  datatype Option<+T> = None | Some(value: T)

  function Min(a: int, b: int): int {
    if a < b then a else b
  }

  function Max(a: int, b: int): int {
    if a < b then b else a
  }

  function Abs(a: int): int {
    if a < 0 then -a else a
  }

  /** Division rounded up; the divisor is positive, so Dafny's `/` is the floor. */
  function CeilDiv(a: int, b: int): int
    requires b > 0
  {
    -((-a) / b)
  }

  /** Division rounded to the nearest integer, halves away from zero. */
  function RoundDiv(a: int, b: int): int
    requires b > 0
  {
    if a >= 0 then (2 * a + b) / (2 * b) else -((-2 * a + b) / (2 * b))
  }

  /** What a 32-bit signed variable holds after `x` was assigned to it. */
  function Wrap32(x: int): int {
    (x + 0x8000_0000) % 0x1_0000_0000 - 0x8000_0000
  }

  /** An integer, a percentage such as "30%", or a string that is neither. */
  datatype IntOrString = Int(value: int) | Percent(percent: int) | Malformed
  {
    predicate IsString() {
      !Int?
    }
  }

  /** `GetScaledValueFromIntOrPercent`; callers ignore its error, and a
      malformed string then reads as zero. */
  function Scaled(v: IntOrString, total: int, roundUp: bool): int {
    match v
    case Int(i) => i
    case Percent(p) => if roundUp then CeilDiv(p * total, 100) else p * total / 100
    case Malformed => 0
  }

  lemma NegativeProduct(k: int, b: int)
    requires b > 0
    ensures k <= -1 ==> k * b <= -b
  {
    if k <= -1 {
      assert (-1 - k) * b >= 0;
    }
  }

  lemma CeilDivBounds(a: int, b: int)
    requires b > 0
    ensures CeilDiv(a, b) * b - b < a <= CeilDiv(a, b) * b
  {
    var q := (-a) / b;
    assert -a == q * b + (-a) % b;
    assert CeilDiv(a, b) * b == -(q * b);
  }

  /** `n` is what the value means of `total`, a percentage being rounded up to a whole
      number, or down. */
  predicate IsRoundedUp(v: IntOrString, total: int, n: int) {
    match v
    case Int(k) => n == k
    case Percent(p) => 100 * (n - 1) < p * total <= 100 * n
    case Malformed => n == 0
  }

  predicate IsRoundedDown(v: IntOrString, total: int, n: int) {
    match v
    case Int(k) => n == k
    case Percent(p) => 100 * n <= p * total < 100 * (n + 1)
    case Malformed => n == 0
  }

  lemma ScaledRounds(v: IntOrString, total: int)
    ensures IsRoundedUp(v, total, Scaled(v, total, true))
    ensures IsRoundedDown(v, total, Scaled(v, total, false))
  {
    if v.Percent? {
      CeilDivBounds(v.percent * total, 100);
    }
  }

  lemma CeilDivMonotone(a: int, a': int, b: int)
    requires b > 0 && a <= a'
    ensures CeilDiv(a, b) <= CeilDiv(a', b)
  {
    CeilDivBounds(a, b);
    CeilDivBounds(a', b);
    var k := CeilDiv(a', b) - CeilDiv(a, b);
    assert k * b == CeilDiv(a', b) * b - CeilDiv(a, b) * b;
    NegativeProduct(k, b);
  }

  /** `z` is the integer nearest to `n / d`, the larger one of two. */
  predicate IsNearest(z: int, n: int, d: int) {
    -d < 2 * (z * d - n) <= d
  }

  lemma RoundDivNearest(a: int, b: int)
    requires b > 0 && a >= 0
    ensures IsNearest(RoundDiv(a, b), a, b)
  {
    var q := (2 * a + b) / (2 * b);
    assert 2 * a + b == q * (2 * b) + (2 * a + b) % (2 * b);
    assert q * (2 * b) == 2 * (q * b);
  }

  /** Rounding keeps the sign, and never moves a value by more than one half. */
  lemma RoundDivBounds(a: int, b: int)
    requires b > 0
    ensures a >= 0 ==> RoundDiv(a, b) >= 0
    ensures a <= 0 ==> RoundDiv(a, b) <= 0
    ensures 2 * Abs(RoundDiv(a, b) * b - a) <= b
  {
    var c := Abs(a);
    var q := (2 * c + b) / (2 * b);
    assert 2 * c + b == q * (2 * b) + (2 * c + b) % (2 * b);
    assert q * (2 * b) == 2 * (q * b);
    assert RoundDiv(a, b) == if a >= 0 then q else -q;
    assert (-q) * b == -(q * b);
  }

  /** How many elements of a list have a property. */
  ghost function HowMany<T>(s: seq<T>, has: T -> bool): nat {
    |Places(s, has)|
  }

  ghost function Places<T>(s: seq<T>, has: T -> bool): set<nat> {
    set i: nat | i < |s| && has(s[i])
  }

  lemma {:induction false} OneMore<T>(s: seq<T>, has: T -> bool)
    requires s != []
    ensures HowMany(s, has) == HowMany(s[..|s| - 1], has) + if has(s[|s| - 1]) then 1 else 0
  {
    var n: nat := |s| - 1;
    assert Places(s, has) == Places(s[..n], has) + if has(s[n]) then {n} else {};
  }

  lemma {:induction false} NoneOfNothing<T>(has: T -> bool)
    ensures HowMany([], has) == 0
  {
    assert Places([], has) == {};
  }
}
