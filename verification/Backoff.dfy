/** The reconnect and retry pauses of `async_backoff.py`, over exact reals. */
module Backoff {
  function MinReal(a: real, b: real): real { if a < b then a else b }
  function MaxReal(a: real, b: real): real { if a < b then b else a }

  /** `base * 2.0 ** n` */
  function Doubled(base: real, n: nat): real { if n == 0 then base else 2.0 * Doubled(base, n - 1) }

  const MAX_EXPONENT: nat := 64

  /** `capped_exponential_backoff`: the exponent is bounded before the power is taken. */
  function Capped(base: real, failures: int, cap: real): real {
    if failures <= 0 then base
    else MinReal(Doubled(base, if failures - 1 < MAX_EXPONENT then failures - 1 else MAX_EXPONENT), cap)
  }

  lemma {:induction false} DoubledGrows(base: real, m: nat, n: nat)
    requires m <= n && base >= 0.0
    ensures base <= Doubled(base, m) <= Doubled(base, n)
    decreases n
  {
    if m < n {
      DoubledGrows(base, m, n - 1);
    } else if n > 0 {
      DoubledGrows(base, m - 1, n - 1);
    }
  }

  /**
   Bounding the exponent changes no result as long as the cap is reached within 64 doublings; the pause
   never shrinks with more failures and stays between the base and the cap.
   */
  lemma CappedIsExact(base: real, failures: int, cap: real)
    requires 0.0 <= base <= cap <= Doubled(base, MAX_EXPONENT) && failures >= 1
    ensures Capped(base, failures, cap) == MinReal(Doubled(base, failures - 1), cap)
    ensures base <= Capped(base, failures, cap) <= Capped(base, failures + 1, cap) <= cap
  {
    var bound := MAX_EXPONENT;
    if bound <= failures - 1 { DoubledGrows(base, bound, failures - 1); }
    DoubledGrows(base, failures - 1, failures);
  }

  const SSE_BASE: real := 2.0
  const SSE_MAX: real := 15.0
  const SSE_OVERLOAD_MAX: real := 20.0

  /** `sse_backoff_ceiling` */
  function SseCeiling(previous: real, overloaded: bool): real {
    MinReal(if overloaded then SSE_OVERLOAD_MAX else SSE_MAX, MaxReal(SSE_BASE, previous * 2.0))
  }

  /** The ceiling after a row of failures, each with its own overload mark. */
  function Ceiling(overloads: seq<bool>): real {
    if overloads == [] then 0.0 else SseCeiling(Ceiling(overloads[..|overloads| - 1]), overloads[|overloads| - 1])
  }

  /** Whatever came before, the ceiling is the next doubling of the base, or the cap of the last failure. */
  lemma {:induction false} CeilingDoubles(overloads: seq<bool>)
    requires overloads != []
    ensures var last := if overloads[|overloads| - 1] then SSE_OVERLOAD_MAX else SSE_MAX;
            Ceiling(overloads) == MinReal(last, Doubled(SSE_BASE, |overloads| - 1))
  {
    var n := |overloads| - 1;
    if n > 0 {
      CeilingDoubles(overloads[..n]);
      DoubledGrows(SSE_BASE, 0, n - 1);
      if n > 3 { DoubledGrows(SSE_BASE, 4, n); DoubledGrows(SSE_BASE, 3, n - 1); }
    }
  }
}
