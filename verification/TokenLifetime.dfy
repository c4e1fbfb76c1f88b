/**
 The maximum-lifetime check on exp and iat. The source computes the lifetime as a
 64-bit count of nanoseconds, so the subtraction and the scaling both wrap around.
 */
module TokenLifetime {
  import opened Machine

  const SECOND: int := 1_000_000_000

  datatype Verdict = Fine | Negative | TooLong

  function Lifetime(exp: Int64, iat: Int64): Int64 {
    Wrap(Wrap(exp - iat) * SECOND)
  }

  function ValidateTokenLifetime(exp: Int64, iat: Int64, max: Int64): Verdict {
    if max <= 0 then Fine
    else if Lifetime(exp, iat) < 0 then Negative
    else if Lifetime(exp, iat) > max then TooLong
    else Fine
  }

  /** What the option promises: the token is not valid for longer than `max`. */
  predicate WithinLimit(exp: Int64, iat: Int64, max: Int64) {
    max <= 0 || 0 <= (exp - iat) * SECOND <= max
  }

  /** The lifetime in nanoseconds is representable: |exp - iat| is below some 292 years. */
  predicate Fits(exp: Int64, iat: Int64) {
    INT_MIN <= (exp - iat) * SECOND <= INT_MAX
  }

  lemma MultipleOfModulus(d: int, k: int)
    requires d == MODULUS * k
    ensures (d * SECOND) % MODULUS == 0
  {
    assert d * SECOND == MODULUS * (k * SECOND);
  }

  lemma WrapCongruent(i: int, j: int)
    requires (i - j) % MODULUS == 0
    ensures Wrap(i) == Wrap(j)
  {
    assert i % MODULUS == j % MODULUS;
  }

  /** The two wrap-arounds together are one: of the true lifetime in nanoseconds. */
  lemma LifetimeWrapsOnce(exp: Int64, iat: Int64)
    ensures Lifetime(exp, iat) == Wrap((exp - iat) * SECOND)
  {
    var d := exp - iat;
    MultipleOfModulus(Wrap(d) - d, (Wrap(d) - d) / MODULUS);
    WrapCongruent(Wrap(d) * SECOND, d * SECOND);
  }

  lemma LifetimeIsExact(exp: Int64, iat: Int64)
    ensures Lifetime(exp, iat) == (exp - iat) * SECOND <==> Fits(exp, iat)
  {
    LifetimeWrapsOnce(exp, iat);
  }

  /** The check is right for every limit exactly when the lifetime is representable, or leaves a
      remainder modulo 2^64 in the upper half, which reads as negative and is refused for that. */
  lemma LimitEnforced(exp: Int64, iat: Int64)
    ensures (forall max: Int64 :: ValidateTokenLifetime(exp, iat, max).Fine? <==> WithinLimit(exp, iat, max))
            <==> Fits(exp, iat) || ((exp - iat) * SECOND) % MODULUS > INT_MAX
  {
    LifetimeWrapsOnce(exp, iat);
    if !Fits(exp, iat) && ((exp - iat) * SECOND) % MODULUS <= INT_MAX {
      assert ValidateTokenLifetime(exp, iat, INT_MAX).Fine? && !WithinLimit(exp, iat, INT_MAX);
    }
  }

  /** A token issued at time zero that expires after some 584 years passes a limit of one second. */
  lemma WrappedLifetimePasses()
    ensures ValidateTokenLifetime(18_446_744_074, 0, SECOND).Fine? && !WithinLimit(18_446_744_074, 0, SECOND)
  {
  }
}
