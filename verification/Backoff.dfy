/** The reconnect delay of the tunnel loop, in seconds. */
module Backoff {
  import opened Numbers

  const BASE_DELAY: nat := 1
  const MAX_DELAY: nat := 30

  function Min(a: nat, b: nat): nat { if a < b then a else b }

  function NextDelay(cur: int, base: nat, max: nat): nat
  {
    if cur <= 0 then base
    else if cur * 2 > max then max
    else cur * 2
  }

  /** The delay after k consecutive failed attempts. */
  function DelayAfter(d: nat, k: nat): nat
  {
    if k == 0 then d else NextDelay(DelayAfter(d, k - 1), BASE_DELAY, MAX_DELAY)
  }

  lemma TimesPow2(d: nat, k: nat)
    requires k > 0
    ensures d * Pow2(k) == 2 * (d * Pow2(k - 1))
  {
    Doubled(d, Pow2(k - 1));
  }

  lemma Doubled(d: nat, p: nat)
    ensures d * (2 * p) == 2 * (d * p)
  {
  }

  lemma {:induction false} PositiveDelayClosedForm(d: nat, k: nat)
    requires 1 <= d <= MAX_DELAY
    ensures 1 <= DelayAfter(d, k) == Min(MAX_DELAY, d * Pow2(k))
  {
    if k > 0 {
      PositiveDelayClosedForm(d, k - 1);
      TimesPow2(d, k);
      NextOfMin(d * Pow2(k - 1));
    }
  }

  lemma NextOfMin(p: nat)
    requires Min(MAX_DELAY, p) >= 1
    ensures NextDelay(Min(MAX_DELAY, p), BASE_DELAY, MAX_DELAY) == Min(MAX_DELAY, 2 * p)
  {
  }

  lemma {:induction false} ZeroDelayClosedForm(k: nat)
    requires k >= 1
    ensures DelayAfter(0, k) == Min(MAX_DELAY, Pow2(k - 1))
  {
    ShiftStart(k);
    PositiveDelayClosedForm(BASE_DELAY, k - 1);
  }

  lemma {:induction false} ShiftStart(k: nat)
    requires k >= 1
    ensures DelayAfter(0, k) == DelayAfter(BASE_DELAY, k - 1)
  {
    if k > 1 {
      ShiftStart(k - 1);
    }
  }

  /** When attempt n (counted from 1) of an unbroken run of failures begins: attempt i takes
      `took[i - 1]` seconds to fail and is followed by the delay of that moment. */
  function AttemptStart(took: seq<nat>, n: nat): nat
    requires 1 <= n <= |took| + 1
  {
    if n == 1 then 0 else AttemptStart(took, n - 1) + took[n - 2] + DelayAfter(0, n - 1)
  }

  lemma {:induction false} AttemptRateBound(took: seq<nat>, n: nat)
    requires 1 <= n <= |took| + 1
    ensures AttemptStart(took, n) >= 30 * n - 149
    ensures n <= 6 ==> AttemptStart(took, n) >= Pow2(n - 1) - 1
  {
    if n > 1 {
      AttemptRateBound(took, n - 1);
      ZeroDelayClosedForm(n - 1);
      SmallPowers(n);
    }
  }

  lemma SmallPowers(n: nat)
    ensures 2 <= n <= 6 ==> Pow2(n - 1) - 1 >= 30 * n - 149 && Pow2(n - 1) == 2 * Pow2(n - 2) && Pow2(n - 2) <= 16
    ensures n > 6 ==> Pow2(n - 2) >= 32
    decreases n
  {
    assert Pow2(1) == 2 && Pow2(2) == 4 && Pow2(3) == 8 && Pow2(4) == 16 && Pow2(5) == 32;
    if n > 7 {
      SmallPowers(n - 1);
    }
  }

  function Sum(took: seq<nat>): nat
  {
    if took == [] then 0 else Sum(took[..|took| - 1]) + took[|took| - 1]
  }

  /** Without the time that the attempts take: 0, 1, 3, 7, 15, 31, and then 30 more each. */
  function DelaysOnly(n: nat): int
    requires n >= 1
  {
    if n <= 6 then Pow2(n - 1) - 1 else 30 * n - 149
  }

  lemma {:induction false} StartSplits(took: seq<nat>, n: nat)
    requires 1 <= n <= |took| + 1
    ensures AttemptStart(took, n) == DelaysOnly(n) + Sum(took[..n - 1])
  {
    if n > 1 {
      StartSplits(took, n - 1);
      ZeroDelayClosedForm(n - 1);
      SmallPowers(n);
      assert took[..n - 1][..n - 2] == took[..n - 2];
    }
  }

  lemma {:induction false} SumIsZero(took: seq<nat>)
    ensures Sum(took) == 0 <==> forall i | 0 <= i < |took| :: took[i] == 0
  {
    if took != [] {
      var front := took[..|took| - 1];
      SumIsZero(front);
      assert forall i | 0 <= i < |front| :: front[i] == took[i];
    }
  }

  /** From the sixth attempt on the bound is met with equality exactly when every attempt before fails
      at once. */
  lemma RateBoundIsTight(took: seq<nat>, n: nat)
    requires 6 <= n <= |took| + 1
    ensures AttemptStart(took, n) == 30 * n - 149 <==> forall i | 0 <= i < n - 1 :: took[i] == 0
  {
    StartSplits(took, n);
    SumIsZero(took[..n - 1]);
    assert n == 6 ==> Pow2(n - 1) - 1 == 31 by {
      assert Pow2(1) == 2 && Pow2(2) == 4 && Pow2(3) == 8 && Pow2(4) == 16 && Pow2(5) == 32;
    }
  }
}
