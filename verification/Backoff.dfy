/**
 The retry delay of the email queue, in nanoseconds, as 64-bit machine arithmetic computes
 it, against the power-of-two delay it stands for. The base comes from the environment or
 is one minute, and may be any 64-bit duration.
 */
module Backoff {

  const MINUTE := 60_000_000_000

  const MAX_INT64 := 0x7fff_ffff_ffff_ffff

  const WORD := 0x1_0000_0000_0000_0000

  predicate Int64(x: int) {
    -MAX_INT64 - 1 <= x <= MAX_INT64
  }

  /** The 64-bit two's complement value congruent to x. */
  function Wrap(x: int): (r: int)
    ensures Int64(r) && (Int64(x) ==> r == x)
  {
    if x % WORD > MAX_INT64 then x % WORD - WORD else x % WORD
  }

  function Pow2(n: nat): (r: nat)
    ensures r >= 1
  {
    if n == 0 then 1 else 2 * Pow2(n - 1)
  }

  /** 1 << n on a 64-bit int: bits shifted past the top are lost. */
  function ShiftOne(n: nat): int {
    if n >= 64 then 0 else Wrap(Pow2(n))
  }

  /** The delay CalculateNextRetryTime adds to the current time. */
  function Delay(attempts: int, base: int): int {
    var n := if attempts <= 0 then 1 else attempts;
    Wrap(ShiftOne(n - 1) * base)
  }

  /** The delay the backoff stands for. */
  function Intended(attempts: int, base: int): int {
    base * Pow2(if attempts <= 0 then 0 else attempts - 1)
  }

  lemma {:induction false} Pow2Grows(a: nat, b: nat)
    requires a <= b
    ensures Pow2(a) <= Pow2(b)
    decreases b
  {
    if a < b {
      Pow2Grows(a, b - 1);
    }
  }

  lemma {:induction false} Pow2Add(a: nat, b: nat)
    ensures Pow2(a + b) == Pow2(a) * Pow2(b)
    decreases b
  {
    if b > 0 {
      Pow2Add(a, b - 1);
    }
  }

  lemma Pow2Marks()
    ensures Pow2(29) == 536_870_912 && Pow2(64) == WORD
  {
    assert Pow2(10) == 1024;
    Pow2Add(10, 10);
    Pow2Add(20, 10);
    Pow2Add(30, 30);
    assert Pow2(30) == 2 * Pow2(29);
    assert Pow2(64) == 16 * Pow2(60);
  }

  lemma WrapsBy(x: int) returns (k: int)
    ensures Wrap(x) == x + k * WORD
  {
    k := if x % WORD > MAX_INT64 then -(x / WORD) - 1 else -(x / WORD);
  }

  lemma WrapIgnoresWords(x: int, k: int)
    ensures Wrap(x + k * WORD) == Wrap(x)
  {
    assert (x + k * WORD) % WORD == x % WORD;
  }

  lemma Distributes(p: int, k: int, w: int, base: int)
    ensures (p + k * w) * base == base * p + (k * base) * w
  {
  }

  /** Bits lost by the shift are lost in whole words. */
  lemma ShiftLosesWords(n: nat) returns (k: int)
    ensures ShiftOne(n) == Pow2(n) + k * WORD
  {
    if n >= 64 {
      Pow2Marks();
      Pow2Add(n - 64, 64);
      k := 0 - Pow2(n - 64);
    } else {
      k := WrapsBy(Pow2(n));
    }
  }

  /** Wherever the bits are dropped, the delay is the intended one modulo 2^64. */
  lemma DelayIsIntendedWrapped(attempts: int, base: int)
    ensures Delay(attempts, base) == Wrap(Intended(attempts, base))
  {
    hide Wrap, Pow2, ShiftOne;
    var n := if attempts <= 0 then 0 else attempts - 1;
    var k := ShiftLosesWords(n);
    Distributes(Pow2(n), k, WORD, base);
    WrapIgnoresWords(base * Pow2(n), k * base);
  }

  /** The delay is the intended one exactly when the intended one is a 64-bit duration, for every base. */
  lemma ExactIffFits(attempts: int, base: int)
    ensures Delay(attempts, base) == Intended(attempts, base) <==> Int64(Intended(attempts, base))
  {
    DelayIsIntendedWrapped(attempts, base);
  }

  /** With the default base of one minute: up to the 28th attempt, and never after. */
  lemma DefaultIsExactTo28(attempts: int)
    ensures Delay(attempts, MINUTE) == Intended(attempts, MINUTE) <==> attempts <= 28
  {
    ExactIffFits(attempts, MINUTE);
    Pow2Marks();
    assert Pow2(28) == Pow2(29) / 2 && Pow2(27) == Pow2(28) / 2;
    if attempts > 28 {
      Pow2Grows(28, attempts - 1);
    } else if attempts > 0 {
      Pow2Grows(attempts - 1, 27);
    }
  }

  lemma StrictlyMore(a: int, b: int, k: nat)
    requires a < b && k > 0
    ensures a * k < b * k
  {
  }

  lemma Cancel(a: int, b: int, k: nat)
    requires k > 0
    ensures a * k == b * k ==> a == b
  {
    if a < b {
      StrictlyMore(a, b, k);
    } else if b < a {
      StrictlyMore(b, a, k);
    }
  }

  /** An odd number of powers of two leaves the word exactly when the power does. */
  lemma OddTimesPower(odd: nat, k: nat)
    requires odd % 2 == 1
    ensures Wrap(odd * Pow2(k)) == 0 <==> k >= 64
  {
    if k >= 64 {
      LargePower(odd, k);
    } else {
      var j := odd * Pow2(k) / WORD;
      SmallPower(odd, k, j);
    }
  }

  lemma LargePower(odd: nat, k: nat)
    requires k >= 64
    ensures Wrap(odd * Pow2(k)) == 0
  {
    Pow2Marks();
    Pow2Add(k - 64, 64);
    Grouped(odd, Pow2(k - 64), WORD);
    var j := odd * Pow2(k - 64);
    hide Pow2;
    WrapIgnoresWords(0, j);
  }

  /** An odd number times less than the word is no multiple of it. */
  lemma SmallPower(odd: nat, k: nat, j: int)
    requires odd % 2 == 1 && k < 64
    ensures odd * Pow2(k) != j * WORD
  {
    Pow2Marks();
    Pow2Add(64 - k, k);
    var p, half := Pow2(k), Pow2(63 - k);
    assert WORD == 2 * half * p;
    hide Pow2;
    Grouped(j, 2 * half, p);
    Doubles(j, half);
    Cancel(odd, j * (2 * half), p);
  }

  /** The 29th default delay lies in the past, and from the 54th attempt on there is none. */
  lemma DefaultAfter28(attempts: int)
    ensures Delay(29, MINUTE) < 0
    ensures Delay(attempts, MINUTE) == 0 <==> attempts >= 54
  {
    Pow2Marks();
    assert Pow2(28) == Pow2(29) / 2;
    assert ShiftOne(28) == 268_435_456;
    var n := if attempts <= 0 then 0 else attempts - 1;
    DelayIsIntendedWrapped(attempts, MINUTE);
    assert Pow2(11) == 2048;
    Pow2Add(11, n);
    Grouped(29_296_875, 2048, Pow2(n));
    OddTimesPower(29_296_875, 11 + n);
  }

  lemma Grouped(a: int, b: int, c: int)
    ensures a * b * c == a * (b * c)
  {
  }

  /** Within the bound each further attempt waits twice as long. */
  lemma DelaysDouble(attempts: int, base: int)
    requires attempts >= 1 && Int64(Intended(attempts + 1, base))
    ensures Delay(attempts + 1, base) == 2 * Delay(attempts, base)
  {
    assert Pow2(attempts) == 2 * Pow2(attempts - 1);
    Doubles(base, Pow2(attempts - 1));
    ExactIffFits(attempts, base);
    ExactIffFits(attempts + 1, base);
  }

  lemma Doubles(a: int, b: int)
    ensures a * (2 * b) == 2 * (a * b)
  {
  }

  /** The delays of attempts 1 to m together. */
  function Total(m: nat, base: int): int {
    if m == 0 then 0 else Total(m - 1, base) + Delay(m, base)
  }

  /** m successive retries wait (2^m - 1) * base, as long as the last of them fits. */
  lemma {:induction false} TotalWait(m: nat, base: int)
    requires m > 0 ==> Int64(Intended(m, base))
    ensures Total(m, base) == (Pow2(m) - 1) * base
  {
    if m > 0 {
      assert m > 1 ==> Intended(m, base) == 2 * Intended(m - 1, base) by {
        if m > 1 {
          Doubles(base, Pow2(m - 2));
        }
      }
      TotalWait(m - 1, base);
      ExactIffFits(m, base);
      Sums(Pow2(m - 1), base);
    }
  }

  lemma Sums(p: int, base: int)
    ensures (p - 1) * base + base * p == (2 * p - 1) * base
  {
  }
}
