/** The retry delay and the sum of the delays a job can be made to wait. */
module Backoff {
  import opened Records

  function Pow2(n: nat): nat {
    if n == 0 then 1 else 2 * Pow2(n - 1)
  }

  /** The delay after the given attempt, without its jitter. */
  function Delay(attempt: nat): int {
    var exponent := if attempt == 0 then 0 else attempt - 1;
    SECOND * (if 5 * Pow2(exponent) < 600 then 5 * Pow2(exponent) else 600)
  }

  /** The delays after attempts 1 to n, added up. */
  function TotalDelay(n: nat): int {
    if n == 0 then 0 else TotalDelay(n - 1) + Delay(n)
  }

  lemma {:induction false} Pow2Grows(n: nat)
    requires n >= 7
    ensures Pow2(n) >= 128
  {
    if n == 7 {
      assert Pow2(3) == 8;
      assert Pow2(5) == 32;
      assert Pow2(7) == 128;
    } else {
      Pow2Grows(n - 1);
    }
  }

  lemma {:induction false} SmallPowers(n: nat)
    requires n <= 6
    ensures 1 <= Pow2(n) <= 64
  {
    if n > 0 {
      SmallPowers(n - 1);
      assert Pow2(2) == 4 && Pow2(4) == 16;
      assert Pow2(6) == 64;
    }
  }

  lemma {:induction false} DelayIsBounded(attempt: nat)
    ensures 5 * SECOND <= Delay(attempt) <= 600 * SECOND
    ensures attempt >= 8 ==> Delay(attempt) == 600 * SECOND
    ensures 1 <= attempt <= 7 ==> Delay(attempt) == 5 * SECOND * Pow2(attempt - 1)
  {
    if attempt >= 8 {
      Pow2Grows(attempt - 1);
    } else if attempt >= 1 {
      SmallPowers(attempt - 1);
    }
  }

  /** The closed form: doubling delays up to seven terms, then ten minutes each. */
  lemma {:induction false} TotalDelayClosedForm(n: nat)
    ensures n <= 7 ==> TotalDelay(n) == SECOND * 5 * (Pow2(n) - 1)
    ensures n >= 7 ==> TotalDelay(n) == SECOND * (635 + 600 * (n - 7))
  {
    if n == 0 {
    } else {
      TotalDelayClosedForm(n - 1);
      DelayIsBounded(n);
      assert Pow2(3) == 8 && Pow2(5) == 32;
      assert Pow2(7) == 128;
    }
  }
}
