/**
 * The reset-code primitives of src/utils/utils.js: drawing a six-digit code
 * and checking an entered code against the e-mailed one before its expiry.
 */
module ResetCode {
  import opened Wrappers
  import opened Text

  /** Bounds handed to `crypto.randomInt(min, max)`: the draw lies in [min, max). */
  const CodeMin: nat := 100000
  const CodeMax: nat := 1000000

  /** What the e-mail carries: six decimal digits, the first not zero. */
  predicate IsResetCode(s: string)
  {
    |s| == 6 && AllDigits(s) && s[0] != '0'
  }

  /**
   * `generateResetCode`: the decimal rendering of the random draw. The draw
   * itself is the random source's business and comes in as a parameter.
   */
  function GenerateResetCode(draw: nat): (code: string)
    requires CodeMin <= draw < CodeMax
    ensures IsResetCode(code)
    ensures ParseDecimal(code) == Some(draw)
  {
    assert Pow10(5) == CodeMin && Pow10(6) == CodeMax;
    DecimalLength(draw, 6);
    DecimalLeadingDigit(draw);
    ParseDecimalOfDecimal(draw);
    Decimal(draw)
  }

  /** Every six-digit code without a leading zero is the rendering of exactly one admissible draw. */
  lemma EveryResetCodeIsGenerated(code: string)
    requires IsResetCode(code)
    ensures var draw := DigitsValue(code); CodeMin <= draw < CodeMax && GenerateResetCode(draw) == code
  {
    DigitsValueBelow(code);
    DigitsValueAtLeast(code);
    assert Pow10(5) == CodeMin && Pow10(6) == CodeMax;
    DecimalOfDigitsValue(code);
  }

  /**
   * The JavaScript value held as an expiration time: a number of milliseconds
   * since the epoch, or the ISO-8601 text `new Date(instant).toISOString()`.
   */
  datatype Timestamp = Millis(ms: int) | IsoString(instant: int)

  /** The instant a timestamp denotes, whichever form it takes. */
  function Instant(t: Timestamp): int
  {
    match t
    case Millis(ms) => ms
    case IsoString(instant) => instant
  }

  /**
   * JavaScript's `currentTime < expirationTime` with a number on the left: an
   * ISO text converts to NaN, and every comparison with NaN is false.
   */
  function NumberLessThan(now: int, t: Timestamp): (less: bool)
    ensures less ==> t.Millis? && now < Instant(t)
    ensures t.Millis? ==> (less <==> now < t.ms)
  {
    match t
    case Millis(ms) => now < ms
    case IsoString(_) => false
  }

  /** `validateResetCode`, with `Date.now()` passed in as `now`. */
  function ValidateResetCode(enteredCode: string, emailedCode: string, expirationTime: Timestamp, now: int): (valid: bool)
    ensures valid ==> enteredCode == emailedCode && now < Instant(expirationTime)
    ensures expirationTime.Millis? ==> (valid <==> enteredCode == emailedCode && now < expirationTime.ms)
    ensures expirationTime.IsoString? ==> !valid
  {
    enteredCode == emailedCode && NumberLessThan(now, expirationTime)
  }

  /** The comparison is strict: at the expiry instant itself the code is already rejected. */
  lemma RejectedAtExpiry(enteredCode: string, emailedCode: string, expirationTime: Timestamp)
    ensures !ValidateResetCode(enteredCode, emailedCode, expirationTime, Instant(expirationTime))
  {
  }

  /** A mismatched code is rejected however much time remains. */
  lemma MismatchRejected(enteredCode: string, emailedCode: string, expirationTime: Timestamp, now: int)
    requires enteredCode != emailedCode
    ensures !ValidateResetCode(enteredCode, emailedCode, expirationTime, now)
  {
  }

  /** A code valid at some moment was valid at every earlier moment. */
  lemma ValidityOnlyExpires(enteredCode: string, emailedCode: string, expirationTime: Timestamp, earlier: int, now: int)
    requires earlier <= now
    requires ValidateResetCode(enteredCode, emailedCode, expirationTime, now)
    ensures ValidateResetCode(enteredCode, emailedCode, expirationTime, earlier)
  {
  }
}
