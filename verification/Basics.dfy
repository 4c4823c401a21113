/** Shared vocabulary: options, machine integers, time, and decimal text. */
module Basics {

  datatype Option<+T> = None | Some(value: T)

  /** How a write-then-rename save ends; the rename is the commit point. */
  datatype SaveOutcome = Committed | FailedBeforeRename | FailedAfterRename

  const MAX_UINT64 := 0xFFFF_FFFF_FFFF_FFFF
  const MAX_UINT32 := 0xFFFF_FFFF
  const MAX_INT64 := 0x7FFF_FFFF_FFFF_FFFF

  type uint64 = n: int | 0 <= n <= MAX_UINT64
  type uint32 = n: int | 0 <= n <= MAX_UINT32

  /** Go's unchecked uint64 arithmetic. */
  function Wrap64(n: nat): (r: uint64)
  {
    n % (MAX_UINT64 + 1)
  }

  /** Nanoseconds since Go's zero time, so that time.IsZero is equality with 0. */
  type Time = int
  const ZERO_TIME: Time := 0
  const UNIX_EPOCH: Time := 62_135_596_800_000_000_000

  /** time.Time.Sub saturates at the limits of a 64-bit duration. */
  function TimeSub(later: Time, earlier: Time): (d: int)
    ensures -0x8000_0000_0000_0000 <= d <= 0x7FFF_FFFF_FFFF_FFFF
    ensures -0x8000_0000_0000_0000 <= later - earlier <= 0x7FFF_FFFF_FFFF_FFFF ==> d == later - earlier
    ensures d < 0 <==> later < earlier
  {
    var d := later - earlier;
    if d > MAX_INT64 then MAX_INT64 else if d < -MAX_INT64 - 1 then -MAX_INT64 - 1 else d
  }

  predicate IsDigit(c: char) { '0' <= c <= '9' }

  function DigitChar(d: nat): (c: char)
    requires d < 10
    ensures IsDigit(c) && DigitValue(c) == d
  {
    (d + '0' as int) as char
  }

  function DigitValue(c: char): (d: nat)
    requires IsDigit(c)
  {
    c as int - '0' as int
  }

  /** strconv.FormatUint in base 10. */
  function Decimal(n: nat): (s: string)
    ensures |s| > 0 && AllDigits(s)
  {
    if n < 10 then [DigitChar(n)] else Decimal(n / 10) + [DigitChar(n % 10)]
  }

  predicate AllDigits(s: string)
  {
    forall i :: 0 <= i < |s| ==> IsDigit(s[i])
  }

  /** The number a digit string denotes, most significant digit first. */
  function DecimalValue(s: string): (n: nat)
    requires AllDigits(s)
  {
    if s == "" then 0 else DecimalValue(s[..|s| - 1]) * 10 + DigitValue(s[|s| - 1])
  }

  lemma {:induction false} DecimalRoundTrip(n: nat)
    ensures DecimalValue(Decimal(n)) == n
  {
    if n >= 10 {
      DecimalRoundTrip(n / 10);
      assert Decimal(n)[..|Decimal(n)| - 1] == Decimal(n / 10);
    }
  }

  lemma DecimalInjective(a: nat, b: nat)
    requires Decimal(a) == Decimal(b)
    ensures a == b
  {
    DecimalRoundTrip(a);
    DecimalRoundTrip(b);
  }

  /** `^[A-Za-z0-9][A-Za-z0-9._:-]{0,127}$` */
  predicate OpaqueId(s: string)
  {
    && 1 <= |s| <= 128
    && IsAlphaNumeric(s[0])
    && forall i :: 0 <= i < |s| ==> IsAlphaNumeric(s[i]) || s[i] in "._:-"
  }

  predicate IsAlphaNumeric(c: char)
  {
    IsDigit(c) || 'a' <= c <= 'z' || 'A' <= c <= 'Z'
  }

  /** unicode.IsSpace. */
  predicate IsSpace(c: char)
  {
    || c in " \t\n\r"
    || c as int in {11, 12, 0x85, 0xA0, 0x1680, 0x2028, 0x2029, 0x202F, 0x205F, 0x3000}
    || 0x2000 <= c as int <= 0x200A
  }

  /** Go's len of a string: the bytes of its UTF-8 form. */
  function ByteLength(s: string): (n: nat)
    ensures |s| <= n <= 4 * |s|
  {
    if s == "" then 0
    else
      var c := s[|s| - 1] as int;
      ByteLength(s[..|s| - 1]) + if c < 0x80 then 1 else if c < 0x800 then 2 else if c < 0x1_0000 then 3 else 4
  }

  lemma {:induction false} PlainByteLength(s: string)
    requires forall i :: 0 <= i < |s| ==> s[i] as int < 0x80
    ensures ByteLength(s) == |s|
  {
    if s != "" {
      PlainByteLength(s[..|s| - 1]);
    }
  }

  predicate IsHexDigit(c: char) { IsDigit(c) || 'a' <= c <= 'f' }

  /** `^[0-9a-f]{64}$`: the lower-case hex form of a SHA-256 digest. */
  predicate IsSha256Hex(s: string)
  {
    |s| == 64 && forall i :: 0 <= i < |s| ==> IsHexDigit(s[i])
  }

  const ZERO_DIGEST: string := seq(64, _ => '0')

  /** SHA-256 followed by hex encoding. Collision freedom is never built in: a
      property that needs it says so. */
  datatype HashFunction = HashFunction(apply: string -> string)

  type Digest = h: HashFunction | forall s :: IsSha256Hex(h.apply(s)) witness HashFunction((s: string) => ZERO_DIGEST)

  function Hash(sha: Digest, s: string): (digest: string)
    ensures IsSha256Hex(digest)
  {
    sha.apply(s)
  }
}
