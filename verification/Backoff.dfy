/** The retry delay of workers and relays, in 64-bit nanoseconds. */
module Backoff {
  import opened Common

  const TWO63 := 0x8000_0000_0000_0000

  /** The int64 that an exact integer wraps around to. */
  function Wrap(x: int): int {
    (x + TWO63) % (2 * TWO63) - TWO63
  }

  function Pow2(n: nat): nat {
    if n == 0 then 1 else 2 * Pow2(n - 1)
  }

  /** base * 2^n */
  function Scaled(base: int, n: nat): int {
    if n == 0 then base else 2 * Scaled(base, n - 1)
  }

  lemma {:induction false} ScaledIsPower(base: int, n: nat)
    ensures Scaled(base, n) == base * Pow2(n)
  {
    if n > 0 {
      ScaledIsPower(base, n - 1);
      assert base * (2 * Pow2(n - 1)) == 2 * (base * Pow2(n - 1));
    }
  }

  lemma {:induction false} ScaledGrows(base: int, m: nat, n: nat)
    requires 0 < base && m <= n
    ensures 0 < Scaled(base, m) <= Scaled(base, n)
  {
    if m < n {
      ScaledGrows(base, m, n - 1);
    } else if m > 0 {
      ScaledGrows(base, m - 1, n - 1);
    }
  }

  lemma WrapAgain(x: int)
    ensures Wrap(Wrap(x) * 2) == Wrap(2 * x)
  {
    var k := (x + TWO63) / (2 * TWO63);
    assert Wrap(x) == x - 2 * TWO63 * k;
    assert Wrap(x) * 2 + TWO63 == (2 * x + TWO63) + 2 * TWO63 * (-2 * k);
  }

  lemma WrapIsIdentity(x: int)
    requires -TWO63 <= x < TWO63
    ensures Wrap(x) == x
  {
  }

  /** rand.Int64N, from an arbitrary draw. */
  function Jitter(exp: int, draw: nat): (r: nat)
    requires exp > 0
    ensures r < exp && (draw < exp ==> r == draw)
  {
    draw % exp
  }

  /** The doubled base before jitter, as int64 arithmetic leaves it. */
  function Doubled(base: int, attempt: int): int {
    Wrap(Scaled(base, if attempt > 1 then attempt - 1 else 0))
  }

  function Clamped(exp: int, jitter: nat): int {
    var d, limit := Wrap(exp + jitter), Wrap(2 * exp);
    if limit > 0 && d > limit then limit else d
  }

  /** The delay for a given random draw; None is the panic of an empty random range. */
  function Delay(base: int, attempt: int, draw: nat): Option<int> {
    var exp := Doubled(base, attempt);
    if exp <= 0 then None else Some(Clamped(exp, Jitter(exp, draw)))
  }

  const DEFAULT_BASE := 500_000_000

  /** initialBackoff: the configured delay if it is positive. */
  function BaseDelay(configured: int): int {
    if configured > 0 then configured else DEFAULT_BASE
  }

  method ComputeBackoff(base: int, attempt: int, draw: nat) returns (delay: Option<int>)
    requires 0 < base < TWO63
    ensures delay == Delay(base, attempt, draw)
  {
    var exp, i := base, 1;
    WrapIsIdentity(base);
    while i < attempt
      invariant 1 <= i && (attempt >= 1 ==> i <= attempt) && (attempt < 1 ==> i == 1)
      invariant exp == Wrap(Scaled(base, i - 1))
    {
      WrapAgain(Scaled(base, i - 1));
      exp := Wrap(exp * 2);
      i := i + 1;
    }
    var limit := Wrap(exp * 2);
    if exp <= 0 { return None; }
    var jitter := Jitter(exp, draw);
    var d := Wrap(exp + jitter);
    if limit > 0 && d > limit { d := limit; }
    delay := Some(d);
  }

  // ---------------------------------------------------------------- when the delay is what it should be

  /** The delay of attempt n lies in [base*2^(n-1), base*2^n). */
  predicate InWindow(base: int, n: nat, d: Option<int>)
    requires n >= 1
  {
    && d.Some?
    && Scaled(base, n - 1) <= d.value < Scaled(base, n)
  }

  /** The clamp never fires while twice the doubled base fits. */
  lemma ClampIdle(exp: int, jitter: nat)
    requires jitter < exp && 2 * exp <= TWO63
    ensures Clamped(exp, jitter) == exp + jitter
  {
  }

  lemma WindowHolds(base: int, n: nat, draw: nat)
    requires 0 < base && n >= 1 && Scaled(base, n) <= TWO63
    ensures InWindow(base, n, Delay(base, n, draw))
  {
    var e := Scaled(base, n - 1);
    ScaledGrows(base, n - 1, n);
    WrapIsIdentity(e);
    ClampIdle(e, Jitter(e, draw));
  }

  /**
   Every random draw gives a delay in the window of the attempt, without the clamp changing it,
   exactly as long as base * 2^n is at most 2^63.
   */
  lemma WindowExactly(base: int, n: nat)
    requires 0 < base < TWO63 && n >= 1
    ensures (forall draw: nat :: InWindow(base, n, Delay(base, n, draw))) <==> base * Pow2(n) <= TWO63
  {
    ScaledIsPower(base, n);
    if Scaled(base, n) <= TWO63 {
      forall draw: nat ensures InWindow(base, n, Delay(base, n, draw)) { WindowHolds(base, n, draw); }
    } else {
      var draw := WindowMissed(base, n);
    }
  }

  /** Within the range the delay is the doubled base plus the draw itself. */
  lemma DelayIsDoubledPlusDraw(base: int, n: nat, draw: nat)
    requires 0 < base && n >= 1 && base * Pow2(n) <= TWO63 && draw < base * Pow2(n - 1)
    ensures Delay(base, n, draw) == Some(base * Pow2(n - 1) + draw)
  {
    ScaledIsPower(base, n);
    ScaledIsPower(base, n - 1);
    ScaledGrows(base, n - 1, n);
    WrapIsIdentity(Scaled(base, n - 1));
    ClampIdle(Scaled(base, n - 1), draw);
  }

  lemma WindowMissed(base: int, n: nat) returns (draw: nat)
    requires 0 < base < TWO63 && n >= 1 && Scaled(base, n) > TWO63
    ensures !InWindow(base, n, Delay(base, n, draw))
  {
    var e := Scaled(base, n - 1);
    ScaledGrows(base, n - 1, n);
    draw := e - 1;
    if e >= TWO63 {
      var exp := Doubled(base, n);
      assert exp > 0 ==> Wrap(exp + Jitter(exp, draw)) < TWO63 && Wrap(2 * exp) < TWO63;
    } else {
      WrapIsIdentity(e);
    }
  }

  /** Just past the limit the largest draw of a first attempt gives a negative delay. */
  lemma NegativeDelay()
    ensures var base := 0x4000_0000_0000_0001;
            var d := Delay(base, 1, base - 1);
            0 < base < TWO63 && d.Some? && d.value < 0
  {
    var base := 0x4000_0000_0000_0001;
    assert Scaled(base, 0) == base && Doubled(base, 1) == base;
    assert Clamped(base, base - 1) < 0;
  }

  /** One doubling later the jitter draw panics, whatever is drawn. */
  lemma PanickingDelay(draw: nat)
    ensures Delay(0x4000_0000_0000_0000, 2, draw) == None
  {
    var base := 0x4000_0000_0000_0000;
    assert Scaled(base, 0) == base && Scaled(base, 1) == TWO63;
  }

  /** Later attempts wait strictly longer, whatever the jitter of either. */
  lemma DelaysIncrease(base: int, m: nat, n: nat, drawM: nat, drawN: nat)
    requires 0 < base && 1 <= m < n && base * Pow2(n) <= TWO63
    ensures Delay(base, m, drawM).Some? && Delay(base, n, drawN).Some?
    ensures Delay(base, m, drawM).value < Delay(base, n, drawN).value
  {
    ScaledIsPower(base, n);
    ScaledGrows(base, m, n - 1);
    ScaledGrows(base, n - 1, n);
    WindowHolds(base, m, drawM);
    WindowHolds(base, n, drawN);
  }

  /** The waiting before attempt n + 1, summed over n failures. */
  function TotalDelay(base: int, draws: seq<nat>): int {
    if draws == [] then 0
    else
      var n := |draws|;
      TotalDelay(base, draws[..n - 1]) + match Delay(base, n, draws[n - 1]) case Some(d) => d case None => 0
  }

  /** All failures of an item together wait at least base*(2^n - 1) and less than twice that. */
  lemma {:induction false} TotalWindow(base: int, draws: seq<nat>)
    requires 0 < base && draws != [] && Scaled(base, |draws|) <= TWO63
    ensures Scaled(base, |draws|) - base <= TotalDelay(base, draws) < 2 * (Scaled(base, |draws|) - base)
    decreases |draws|
  {
    var n := |draws|;
    WindowHolds(base, n, draws[n - 1]);
    ScaledGrows(base, n - 1, n);
    if n > 1 {
      TotalWindow(base, draws[..n - 1]);
    } else {
      assert draws[..0] == [] && Scaled(base, 0) == base && TotalDelay(base, draws[..0]) == 0;
    }
  }
}
