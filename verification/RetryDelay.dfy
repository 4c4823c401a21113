/** The callback retry schedule: bounded doubling with stable jitter. */
module RetryDelay {
  import opened Basics

  type int64 = n: int | -MAX_INT64 - 1 <= n <= MAX_INT64

  function Pow2(n: nat): (p: nat)
    ensures p >= 1
  {
    if n == 0 then 1 else 2 * Pow2(n - 1)
  }

  function Min(a: int, b: int): (m: int) { if a < b then a else b }

  /** The schedule before jitter. */
  function Backoff(initial: nat, attempt: nat, maximum: nat): (base: nat)
    requires attempt > 0
  {
    Min(initial * Pow2(attempt - 1), maximum)
  }

  function HexDigitValue(c: char): (d: nat)
    requires IsHexDigit(c)
  {
    if IsDigit(c) then DigitValue(c) else c as int - 'a' as int + 10
  }

  function HexValue(s: string): (n: nat)
    requires forall i :: 0 <= i < |s| ==> IsHexDigit(s[i])
  {
    if s == "" then 0 else HexValue(s[..|s| - 1]) * 16 + HexDigitValue(s[|s| - 1])
  }

  /** 750..1250, from the first eight digest bytes of "eventID:attempt". */
  function JitterFactor(sha: Digest, eventId: string, attempt: nat): (factor: nat)
    ensures 750 <= factor <= 1250
  {
    750 + HexValue(Hash(sha, eventId + ":" + Decimal(attempt))[..16]) % 501
  }

  /** Exact rational scaling of base by factor/1000, rounded towards base and capped. */
  function Jittered(base: nat, factor: nat, maximum: nat): (delay: int)
    requires 750 <= factor <= 1250
  {
    if factor <= 1000 then base - base * (1000 - factor) / 1000
    else Min(maximum, base + base * (factor - 1000) / 1000)
  }

  function Delay(sha: Digest, eventId: string, attempt: nat, initial: nat, maximum: nat): (delay: int)
    requires attempt > 0
  {
    Jittered(Backoff(initial, attempt, maximum), JitterFactor(sha, eventId, attempt), maximum)
  }

  lemma SplitDivision(base: nat, delta: nat)
    ensures base / 1000 * delta + base % 1000 * delta / 1000 == base * delta / 1000
  {
    var q, m := base / 1000, base % 1000;
    assert base * delta == 1000 * (q * delta) + m * delta by {
      assert base == 1000 * q + m;
      assert (1000 * q + m) * delta == 1000 * q * delta + m * delta;
      assert 1000 * q * delta == 1000 * (q * delta);
    }
    DivisionShift(q * delta, m * delta);
  }

  lemma DivisionShift(k: nat, m: nat)
    ensures (1000 * k + m) / 1000 == k + m / 1000
  {
  }

  lemma {:induction false} Pow2Grows(a: nat, b: nat)
    requires a <= b
    ensures Pow2(a) <= Pow2(b)
  {
    if a < b {
      Pow2Grows(a, b - 1);
    }
  }

  lemma ScaleBounds(base: nat, delta: nat, limit: nat)
    requires delta <= limit
    ensures 0 <= base * delta / 1000 <= base * limit / 1000
  {
    assert base * delta <= base * limit;
  }

  lemma JitteredBounds(base: nat, factor: nat, maximum: nat)
    requires 750 <= factor <= 1250 && 0 < base <= maximum
    ensures (3 * base + 3) / 4 <= Jittered(base, factor, maximum) <= Min(maximum, 5 * base / 4)
    ensures 0 < Jittered(base, factor, maximum)
  {
    if factor <= 1000 {
      ScaleBounds(base, 1000 - factor, 250);
    } else {
      ScaleBounds(base, factor - 1000, 250);
    }
  }

  /** ceil(3/4 base) <= delay <= min(maximum, floor(5/4 base)), and never zero. */
  lemma DelayBounds(sha: Digest, eventId: string, attempt: nat, initial: nat, maximum: nat)
    requires attempt > 0 && 0 < initial <= maximum
    ensures var base := Backoff(initial, attempt, maximum);
            var delay := Delay(sha, eventId, attempt, initial, maximum);
            && (3 * base + 3) / 4 <= delay <= Min(maximum, 5 * base / 4)
            && 0 < delay
  {
    assert initial * Pow2(attempt - 1) >= initial * 1;
    JitteredBounds(Backoff(initial, attempt, maximum), JitterFactor(sha, eventId, attempt), maximum);
  }

  lemma BackoffIsBounded(initial: nat, attempt: nat, maximum: nat)
    requires attempt > 0 && 0 < initial <= maximum
    ensures initial <= Backoff(initial, attempt, maximum) <= maximum
  {
    assert initial * Pow2(attempt - 1) >= initial * 1;
  }

  /** One more doubling, or the cap for good. */
  lemma BackoffStep(initial: nat, k: nat, maximum: nat)
    requires 0 < initial <= maximum && k > 0
    ensures var base := Backoff(initial, k, maximum);
            Backoff(initial, k + 1, maximum) == if base > maximum / 2 then maximum else 2 * base
  {
    assert initial * Pow2(k) == 2 * (initial * Pow2(k - 1));
  }

  lemma BackoffSaturates(initial: nat, k: nat, attempt: nat, maximum: nat)
    requires 0 < initial <= maximum && 0 < k <= attempt
    requires Backoff(initial, k, maximum) == maximum
    ensures Backoff(initial, attempt, maximum) == maximum
  {
    Pow2Grows(k - 1, attempt - 1);
    assert initial * Pow2(k - 1) <= initial * Pow2(attempt - 1);
  }

  /** The doubling loop. Every intermediate value is an int64, so nothing wraps. */
  method DoubledBase(attempt: uint32, initial: int64, maximum: int64) returns (base: int64)
    requires attempt > 0 && 0 < initial <= maximum
    ensures base == Backoff(initial, attempt, maximum)
  {
    base := initial;
    var index: uint32 := 1;
    assert initial * Pow2(0) == initial;
    while index < attempt && base < maximum
      invariant 1 <= index <= attempt
      invariant base == Backoff(initial, index, maximum)
    {
      BackoffStep(initial, index, maximum);
      index := index + 1;
      if base > maximum / 2 {
        base := maximum;
        break;
      }
      base := base * 2;
    }
    if base == maximum {
      BackoffSaturates(initial, index, attempt, maximum);
    }
  }

  /** The jitter arithmetic, again inside int64 throughout. */
  method ApplyJitter(base: int64, factor: int64, maximum: int64) returns (delay: int64)
    requires 0 < base <= maximum && 750 <= factor <= 1250
    ensures delay == Jittered(base, factor, maximum)
  {
    if factor == 1000 {
      return base;
    }
    var delta: int64 := if factor < 1000 then 1000 - factor else factor - 1000;
    SplitDivision(base, delta);
    ScaledPartsFit(base, delta);
    var whole: int64, rest: int64 := base / 1000 * delta, base % 1000 * delta / 1000;
    if factor < 1000 {
      return base - whole - rest;
    }
    var extra: int64 := whole + rest;
    if extra > maximum - base {
      return maximum;
    }
    return base + extra;
  }

  method CallbackRetryDelay(sha: Digest, eventId: string, attempt: uint32, initial: int64, maximum: int64)
    returns (delay: int64)
    requires attempt > 0 && 0 < initial <= maximum
    ensures delay == Delay(sha, eventId, attempt, initial, maximum)
  {
    var base := DoubledBase(attempt, initial, maximum);
    assert initial * Pow2(attempt - 1) >= initial * 1;
    delay := ApplyJitter(base, JitterFactor(sha, eventId, attempt), maximum);
  }

  lemma ScaledPartsFit(base: nat, delta: nat)
    requires delta <= 250
    ensures 0 <= base / 1000 * delta <= base
    ensures 0 <= base % 1000 * delta / 1000 <= base
    ensures base / 1000 * delta + base % 1000 * delta / 1000 <= base
  {
    SplitDivision(base, delta);
    ScaleBounds(base, delta, 250);
    assert base / 1000 * delta >= 0 && base % 1000 * delta >= 0;
  }

  // ------------------------------------------------------- the range of jitter

  function HexDigit(d: nat): (c: char)
    requires d < 16
    ensures IsHexDigit(c) && HexDigitValue(c) == d
  {
    if d < 10 then '0' + d as char else 'a' + (d - 10) as char
  }

  lemma {:induction false} ZerosAreZero(n: nat)
    ensures HexValue(seq(n, _ => '0')) == 0
  {
    if n > 0 {
      var zeros := seq(n, _ => '0');
      assert zeros[..n - 1] == seq(n - 1, _ => '0');
      ZerosAreZero(n - 1);
    }
  }

  lemma HexAppend(s: string, d: nat)
    requires (forall i :: 0 <= i < |s| ==> IsHexDigit(s[i])) && d < 16
    ensures HexValue(s + [HexDigit(d)]) == HexValue(s) * 16 + d
  {
    assert (s + [HexDigit(d)])[..|s|] == s;
  }

  function DigestOf(n: nat): (digest: string)
    requires n < 4096
    ensures IsSha256Hex(digest)
  {
    seq(13, _ => '0') + [HexDigit(n / 256)] + [HexDigit(n / 16 % 16)] + [HexDigit(n % 16)] + seq(48, _ => '0')
  }

  lemma DigestOfValue(n: nat)
    requires n < 4096
    ensures HexValue(DigestOf(n)[..16]) == n
  {
    var zeros := seq(13, _ => '0');
    ZerosAreZero(13);
    HexAppend(zeros, n / 256);
    HexAppend(zeros + [HexDigit(n / 256)], n / 16 % 16);
    HexAppend(zeros + [HexDigit(n / 256)] + [HexDigit(n / 16 % 16)], n % 16);
    assert DigestOf(n)[..16] == zeros + [HexDigit(n / 256)] + [HexDigit(n / 16 % 16)] + [HexDigit(n % 16)];
    hide HexValue, HexDigit;
  }

  /** Every factor from 750 to 1250 thousandths, and no other, is the jitter of
      some digest. */
  lemma JitterReachesExactly(eventId: string, attempt: nat, factor: nat)
    ensures (exists sha: Digest :: JitterFactor(sha, eventId, attempt) == factor) <==> 750 <= factor <= 1250
  {
    if 750 <= factor <= 1250 {
      var n := factor - 750;
      var sha: Digest := HashFunction((s: string) => DigestOf(n));
      DigestOfValue(n);
      assert JitterFactor(sha, eventId, attempt) == factor;
    }
  }
}
