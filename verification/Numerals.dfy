/**
 How an int passes through a float64 and its JSON text: rounded to the nearest double, ties
 to even; written with the fewest digits that still read back as that double, padded with
 zeros; and read as a 64-bit int.
 */
module Numerals {
  import opened Prelude

  /** 2^53: up to here doubles hold every integer. */
  const EXACT := 0x20_0000_0000_0000

  const MAX_INT64 := 0x7fff_ffff_ffff_ffff

  /** m == steps * unit + rest, where unit is the distance between neighbouring doubles at m. */
  datatype Parts = Parts(steps: nat, unit: nat, rest: nat)

  function Split(m: nat): (p: Parts)
    ensures m == p.steps * p.unit + p.rest && p.rest < p.unit
    ensures m < EXACT ==> p == Parts(m, 1, 0)
    ensures m >= EXACT ==> EXACT / 2 <= p.steps < EXACT && (if m < 2 * EXACT then p.unit == 2 else p.unit >= 4)
  {
    if m < EXACT then Parts(m, 1, 0)
    else
      var half := Split(m / 2);
      assert half.steps * (2 * half.unit) == 2 * (half.steps * half.unit);
      Parts(half.steps, 2 * half.unit, 2 * half.rest + m % 2)
  }

  function Nearest(p: Parts): nat {
    if 2 * p.rest < p.unit || (2 * p.rest == p.unit && p.steps % 2 == 0) then p.steps * p.unit
    else p.steps * p.unit + p.unit
  }

  function Round(m: nat): nat {
    Nearest(Split(m))
  }

  function Double(n: int): int {
    if n < 0 then 0 - Round(-n) else Round(n)
  }

  function WithoutDigits(m: nat, e: nat): nat {
    if e == 0 then m else WithoutDigits(m / 10, e - 1)
  }

  function WithZeros(m: nat, e: nat): nat {
    if e == 0 then m else 10 * WithZeros(m, e - 1)
  }

  /** Of the multiples of 10^e that read back as the double m, the nearest; failing that, with one digit more. */
  function Shortest(m: nat, e: nat): nat {
    if e == 0 then m
    else
      var low, high := WithZeros(WithoutDigits(m, e), e), WithZeros(WithoutDigits(m, e) + 1, e);
      if Round(low) == m && (Round(high) != m || m - low <= high - m) then low
      else if Round(high) == m then high
      else Shortest(m, e - 1)
  }

  /** The integer that the text of an integral double denotes; no int has more than 19 digits. */
  function TextOf(x: int): int {
    if x < 0 then 0 - Shortest(-x, 19) else Shortest(x, 19)
  }

  /** A number of the map as an int field; None when its text is not a 64-bit integer. */
  function IntOf(x: real): Option<int> {
    if x != x.Floor as real then None
    else if -MAX_INT64 - 1 <= TextOf(x.Floor) <= MAX_INT64 then Some(TextOf(x.Floor))
    else None
  }

  /** What becomes of an int on its way through the map. */
  function Carried(n: int): Option<int> {
    IntOf(Double(n) as real)
  }

  lemma SmallAreDoubles(m: nat)
    requires m <= EXACT
    ensures Round(m) == m
  {
    assert m == EXACT ==> Split(m).unit == 2;
  }

  /** A multiple of ten beyond 2^53 does not read back as anything up to there. */
  lemma LargeStayLarge(y: nat)
    requires y > EXACT && y % 10 == 0
    ensures Round(y) > EXACT
  {
    var p := Split(y);
    if y >= 2 * EXACT {
      TimesMonotone(EXACT / 2, p.steps, 4, p.unit);
    }
  }

  lemma TimesMonotone(a: nat, b: nat, k: nat, l: nat)
    requires a <= b && k <= l
    ensures a * k <= b * l
  {
    assert a * k <= b * k <= b * l;
  }

  lemma {:induction false} SmallAreWritten(m: nat, e: nat)
    requires m <= EXACT
    ensures Shortest(m, e) == m
  {
    hide Round, WithoutDigits;
    if e > 0 {
      SmallAreWritten(m, e - 1);
      var low, high := WithZeros(WithoutDigits(m, e), e), WithZeros(WithoutDigits(m, e) + 1, e);
      ReadsBackAlone(m, low);
      ReadsBackAlone(m, high);
    }
  }

  lemma ReadsBackAlone(m: nat, y: nat)
    requires m <= EXACT && y % 10 == 0
    ensures Round(y) == m ==> y == m
  {
    if y <= EXACT {
      SmallAreDoubles(y);
    } else {
      LargeStayLarge(y);
    }
  }

  /** Integers up to 2^53 pass unchanged. */
  lemma SmallIntegersCarry(n: int)
    requires -EXACT <= n <= EXACT
    ensures Carried(n) == Some(n)
  {
    var m := if n < 0 then -n else n;
    SmallAreDoubles(m);
    SmallAreWritten(m, 19);
    hide Round, Shortest;
    assert (n as real).Floor == n;
  }

  lemma TieGoesToEven()
    ensures Round(EXACT + 1) == EXACT
  {
    var p := Split(EXACT + 1);
    assert p.unit == 2 && EXACT + 1 == p.steps * 2 + p.rest;
  }

  /** The bound is tight: the next integer comes back as 2^53. */
  lemma NextIntegerDoesNot()
    ensures Carried(EXACT + 1) == Some(EXACT)
  {
    TieGoesToEven();
    SmallAreWritten(EXACT, 19);
    hide Shortest, Round;
    assert (EXACT as real).Floor == EXACT;
  }

  // ---- Exactly which integers pass ----

  /** Trailing decimal zeros, counted up to cap. */
  function Zeros(m: nat, cap: nat): (z: nat)
    ensures z <= cap
  {
    if cap == 0 || m % 10 != 0 then 0 else 1 + Zeros(m / 10, cap - 1)
  }

  function Distance(a: nat, b: nat): nat {
    if a < b then b - a else a - b
  }

  /** a is nearer to d than b is; of two equally near the lower counts as nearer. */
  predicate Nearer(a: nat, b: nat, d: nat) {
    Distance(a, d) < Distance(b, d) || (Distance(a, d) == Distance(b, d) && a <= b)
  }

  /**
   Among the integers that round to d, m has the most trailing zeros, and of those with as
   many it is the nearest to d.
   */
  ghost predicate Terse(m: nat, d: nat) {
    && Round(m) == d
    && forall y: nat :: Round(y) == d ==>
         Zeros(y, 19) < Zeros(m, 19) || (Zeros(y, 19) == Zeros(m, 19) && Nearer(m, y, d))
  }

  /** Units do not shrink, and grow by doubling. */
  lemma {:induction false} UnitsGrow(a: nat, b: nat)
    requires a <= b
    ensures Split(a).unit == Split(b).unit || (2 * Split(a).unit <= Split(b).unit && b >= EXACT)
    decreases b
  {
    if a >= EXACT {
      UnitsGrow(a / 2, b / 2);
    }
  }

  lemma RoundAscends(a: nat, b: nat)
    requires a <= b
    ensures Round(a) <= Round(b)
  {
    var p, q := Split(a), Split(b);
    UnitsGrow(a, b);
    hide Split, Nearest;
    if p.unit == q.unit {
      SameUnitAscends(p, q);
    } else {
      LargerUnitAscends(p, q);
    }
  }

  lemma SameUnitAscends(p: Parts, q: Parts)
    requires p.unit == q.unit && p.rest < p.unit && q.rest < q.unit
    requires p.steps * p.unit + p.rest <= q.steps * q.unit + q.rest
    ensures Nearest(p) <= Nearest(q)
  {
    var u := p.unit;
    if p.steps < q.steps {
      TimesMonotone(p.steps + 1, q.steps, u, u);
      Factored(p.steps, u);
    } else if q.steps < p.steps {
      TimesMonotone(q.steps + 1, p.steps, u, u);
      Factored(q.steps, u);
    }
  }

  lemma LargerUnitAscends(p: Parts, q: Parts)
    requires p.steps < EXACT && q.steps >= EXACT / 2 && 2 * p.unit <= q.unit
    ensures Nearest(p) <= Nearest(q)
  {
    TimesMonotone(p.steps + 1, EXACT, p.unit, p.unit);
    TimesMonotone(EXACT / 2, q.steps, 2 * p.unit, q.unit);
    Factored(p.steps, p.unit);
  }

  lemma Factored(s: nat, u: nat)
    ensures (s + 1) * u == s * u + u
  {
  }

  /** What rounds to d lies together. */
  lemma RoundsAlikeBetween(a: nat, b: nat, c: nat)
    requires a <= b <= c && Round(a) == Round(c)
    ensures Round(b) == Round(a)
  {
    RoundAscends(a, b);
    RoundAscends(b, c);
  }

  /** Up to 2^53 units make a double. */
  lemma {:induction false} UnitsMakeDoubles(m: nat, s: nat)
    requires s <= EXACT
    ensures Split(s * Split(m).unit).rest == 0
    decreases m
  {
    if m >= EXACT {
      var u := Split(m / 2).unit;
      UnitsMakeDoubles(m / 2, s);
      assert s * (2 * u) == 2 * (s * u);
    } else if s == EXACT {
      assert Split(EXACT / 2).rest == 0;
    }
  }

  lemma RoundIsDouble(m: nat)
    ensures Round(Round(m)) == Round(m)
  {
    var p := Split(m);
    UnitsMakeDoubles(m, p.steps);
    UnitsMakeDoubles(m, p.steps + 1);
    Factored(p.steps, p.unit);
    hide Split;
  }

  /** Multiples of 10^e, by their zeros. */
  lemma {:induction false} ZerosMean(y: nat, e: nat, cap: nat)
    requires e <= cap
    ensures Zeros(y, cap) >= e <==> WithZeros(WithoutDigits(y, e), e) == y
  {
    if e > 0 {
      ZerosMean(y / 10, e - 1, cap - 1);
    }
  }

  lemma {:induction false} WithZerosAscends(a: nat, b: nat, e: nat)
    requires a <= b
    ensures WithZeros(a, e) <= WithZeros(b, e)
  {
    if e > 0 {
      WithZerosAscends(a, b, e - 1);
    }
  }

  lemma {:induction false} WithoutDigitsAscends(a: nat, b: nat, e: nat)
    requires a <= b
    ensures WithoutDigits(a, e) <= WithoutDigits(b, e)
  {
    if e > 0 {
      WithoutDigitsAscends(a / 10, b / 10, e - 1);
    }
  }

  lemma {:induction false} WithoutZeros(h: nat, e: nat)
    ensures WithoutDigits(WithZeros(h, e), e) == h
  {
    if e > 0 {
      WithoutZeros(h, e - 1);
    }
  }

  lemma {:induction false} Neighbours(d: nat, e: nat)
    ensures WithZeros(WithoutDigits(d, e), e) <= d < WithZeros(WithoutDigits(d, e) + 1, e)
  {
    if e > 0 {
      Neighbours(d / 10, e - 1);
    }
  }

  /** A multiple of 10^e is not strictly between the two next to d. */
  lemma NoneBetween(d: nat, y: nat, e: nat, cap: nat)
    requires e <= cap && Zeros(y, cap) >= e
    ensures y <= WithZeros(WithoutDigits(d, e), e) || y >= WithZeros(WithoutDigits(d, e) + 1, e)
  {
    ZerosMean(y, e, cap);
    if y <= d {
      WithoutDigitsAscends(y, d, e);
      WithZerosAscends(WithoutDigits(y, e), WithoutDigits(d, e), e);
    } else {
      WithoutDigitsAscends(d, y, e);
      if WithoutDigits(y, e) == WithoutDigits(d, e) {
        Neighbours(d, e);
      } else {
        WithZerosAscends(WithoutDigits(d, e) + 1, WithoutDigits(y, e), e);
      }
    }
  }

  /** The text written is the terse one. */
  lemma {:induction false} ShortestIsTerse(d: nat, e: nat)
    requires Round(d) == d && e <= 19
    requires forall y: nat :: Round(y) == d ==> Zeros(y, 19) <= e
    ensures Terse(Shortest(d, e), d)
  {
    hide Round, Zeros;
    if e > 0 {
      var low, high := WithZeros(WithoutDigits(d, e), e), WithZeros(WithoutDigits(d, e) + 1, e);
      Neighbours(d, e);
      WithoutZeros(WithoutDigits(d, e), e);
      WithoutZeros(WithoutDigits(d, e) + 1, e);
      ZerosMean(low, e, 19);
      ZerosMean(high, e, 19);
      forall y: nat | Round(y) == d && Zeros(y, 19) >= e
        ensures (y <= low && Round(low) == d) || (y >= high && Round(high) == d)
      {
        NoneBetween(d, y, e, 19);
        if y <= low {
          RoundsAlikeBetween(y, low, d);
        } else {
          RoundsAlikeBetween(d, high, y);
        }
      }
      if Round(low) != d && Round(high) != d {
        ShortestIsTerse(d, e - 1);
      }
    }
  }

  lemma TerseIsUnique(a: nat, b: nat, d: nat)
    requires Terse(a, d) && Terse(b, d)
    ensures a == b
  {
    hide Round, Zeros;
  }

  /**
   An int comes back exactly when, among the integers that become the same double, it has
   the most trailing zeros and is the nearest to the double of those that do. It need not be
   a double itself.
   */
  lemma CarriedIff(n: int)
    requires -MAX_INT64 - 1 <= n <= MAX_INT64
    ensures var m := if n < 0 then -n else n;
            Carried(n) == Some(n) <==> Terse(m, Round(m))
  {
    var m := if n < 0 then -n else n;
    SmallAreDoubles(1);
    hide Round, Shortest, Zeros, Terse;
    var d := Round(m);
    RoundIsDouble(m);
    ShortestIsTerse(d, 19);
    if n < 0 {
      RoundAscends(1, m);
    }
    assert (Double(n) as real).Floor == Double(n);
    if Terse(m, d) {
      TerseIsUnique(m, Shortest(d, 19), d);
    }
  }

  /** 2^54 + 6 is no double, but it is the text of the one it becomes, and so comes back. */
  lemma NotADoubleButCarried()
    ensures var n := 2 * EXACT + 6; Double(n) == n + 2 && Carried(n) == Some(n)
  {
    hide Round, Carried;
    var n := 2 * EXACT + 6;
    RoundNearby();
    CarriedIff(n);
    assert Zeros(n, 19) >= 1;
    forall y: nat | Round(y) == n + 2
      ensures Zeros(y, 19) < Zeros(n, 19) || (Zeros(y, 19) == Zeros(n, 19) && Nearer(n, y, n + 2))
    {
      if y % 10 == 0 && y < n {
        RoundAscends(y, n - 10);
      } else if y % 10 == 0 && y > n {
        RoundAscends(n + 10, y);
      }
    }
  }

  lemma RoundNearby()
    ensures var n := 2 * EXACT + 6;
            Round(n - 10) == n - 10 && Round(n) == n + 2 && Round(n + 10) == n + 10
  {
    var n := 2 * EXACT + 6;
    assert Split((n - 10) / 2) == Parts((n - 10) / 2, 1, 0);
    assert Split(n / 4) == Parts(n / 4, 1, 0);
    assert Split(n / 2) == Parts(n / 4, 2, 1);
    assert Split((n + 10) / 4) == Parts((n + 10) / 4, 1, 0);
    assert Split((n + 10) / 2) == Parts((n + 10) / 4, 2, 0);
  }
}
