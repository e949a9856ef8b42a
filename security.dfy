/**
 * `verifyFeaturebaseWebhook` (security.ts): the checks a webhook delivery
 * must pass, in their order.  The HMAC-SHA256 hex digest and
 * `Buffer.from(hex, "hex")` are parameters, and so is the clock.
 */
module Security {
  import opened Wrappers
  import opened Js

  /** `{isValid, error?}`; `None` is an absent `error`. */
  datatype VerificationResult = VerificationResult(isValid: bool, error: Option<string>)

  const MaxTimestampDiff: int := 5 * 60

  const MissingInputs: string := "Missing signature, timestamp, or secret"
  const StaleTimestamp: string := "Webhook timestamp too old or too far in the future"
  const InvalidSignature: string := "Invalid signature"
  const LengthMismatch: string := "Input buffers must have the same byte length"

  // ---------------------------------------------------------------------
  // parseInt(s, 10)

  /** The characters `parseInt` skips before the number: JavaScript WhiteSpace and LineTerminator. */
  predicate IsJsWhitespace(c: char) {
    c == '\t' || c == '\n' || c == '\U{000B}' || c == '\U{000C}' || c == '\r' || c == ' '
    || c == '\U{00A0}' || c == '\U{1680}' || ('\U{2000}' <= c <= '\U{200A}')
    || c == '\U{2028}' || c == '\U{2029}' || c == '\U{202F}' || c == '\U{205F}' || c == '\U{3000}'
    || c == '\U{FEFF}'
  }

  predicate IsDigit(c: char) {
    '0' <= c <= '9'
  }

  function TrimStart(s: string): string {
    if s != [] && IsJsWhitespace(s[0]) then TrimStart(s[1..]) else s
  }

  /** The length of the longest run of decimal digits at the start of `s`. */
  function DigitRun(s: string): (n: nat)
    ensures n <= |s|
    ensures forall i | 0 <= i < n :: IsDigit(s[i])
    ensures n < |s| ==> !IsDigit(s[n])
  {
    if s == [] || !IsDigit(s[0]) then 0 else 1 + DigitRun(s[1..])
  }

  /** The value of a string of decimal digits, most significant first. */
  function DigitsValue(ds: string): nat
    requires forall i | 0 <= i < |ds| :: IsDigit(ds[i])
  {
    if ds == [] then 0
    else DigitsValue(ds[..|ds| - 1]) * 10 + DigitValue(ds[|ds| - 1])
  }

  function DigitValue(c: char): (d: nat)
    requires IsDigit(c)
    ensures d < 10
  {
    (c as int - '0' as int) as nat
  }

  /**
   * `parseInt(s, 10)`: skip leading white space, read an optional sign and
   * the longest run of digits.  `None` is NaN (no digit at all).
   */
  function ParseInt10(s: string): Option<int> {
    var t := TrimStart(s);
    var negative := t != [] && t[0] == '-';
    var u := if t != [] && (t[0] == '-' || t[0] == '+') then t[1..] else t;
    var n := DigitRun(u);
    if n == 0 then None
    else
      var magnitude: int := DigitsValue(u[..n]);
      Some(if negative then -magnitude else magnitude)
  }

  function Abs(x: int): nat {
    if x < 0 then -x else x
  }

  // ---------------------------------------------------------------------
  // The check

  /** `crypto.timingSafeEqual`, which throws a RangeError on buffers of different lengths. */
  function TimingSafeEqual(a: seq<bv8>, b: seq<bv8>): (r: Result<bool, string>)
    ensures r.Err? <==> |a| != |b|
    ensures r.Ok? ==> (r.value <==> forall i | 0 <= i < |a| :: a[i] == b[i])
  {
    if |a| != |b| then Err(LengthMismatch) else Ok(a == b)
  }

  /** The string the signature is computed over: `${timestamp}.${rawBody}`. */
  function SignedPayload(timestamp: string, rawBody: string): string {
    timestamp + "." + rawBody
  }

  /**
   * `verifyFeaturebaseWebhook(signature, timestamp, rawBody, secret)` at the
   * time `nowMillis` (`Date.now()`), with `hmacHex(secret, text)` the hex
   * HMAC-SHA256 digest and `hexDecode` `Buffer.from(_, "hex")`.
   */
  function Verify(signature: string, timestamp: string, rawBody: string, secret: string, nowMillis: int,
                  hmacHex: (string, string) -> string, hexDecode: string -> seq<bv8>): (r: VerificationResult)
    ensures r.isValid <==> r.error.None?
    ensures r.isValid ==> hexDecode(signature) == hexDecode(hmacHex(secret, SignedPayload(timestamp, rawBody)))
  {
    if signature == "" || timestamp == "" || secret == "" then
      VerificationResult(false, Some(MissingInputs))
    else
      var currentTime := nowMillis / 1000;
      var webhookTime := ParseInt10(timestamp);
      // Math.abs(currentTime - NaN) > 300 is false: an unparsable timestamp is not rejected here.
      if webhookTime.Some? && Abs(currentTime - webhookTime.value) > MaxTimestampDiff then
        VerificationResult(false, Some(StaleTimestamp))
      else
        var expectedSignature := hmacHex(secret, SignedPayload(timestamp, rawBody));
        match TimingSafeEqual(hexDecode(signature), hexDecode(expectedSignature))
        case Err(message) => VerificationResult(false, Some("Verification failed: " + message))
        case Ok(isValid) => VerificationResult(isValid, if isValid then None else Some(InvalidSignature))
  }

  /** Whether the timestamp passes the freshness window at `nowMillis`. */
  predicate Fresh(timestamp: string, nowMillis: int) {
    var t := ParseInt10(timestamp);
    t.None? || Abs(nowMillis / 1000 - t.value) <= MaxTimestampDiff
  }

  // ---------------------------------------------------------------------
  // What the check promises

  /** A missing input is reported first, whatever the clock and the digest would say. */
  lemma MissingInputsFirst(signature: string, timestamp: string, rawBody: string, secret: string, nowMillis: int,
                           hmacHex: (string, string) -> string, hexDecode: string -> seq<bv8>)
    requires signature == "" || timestamp == "" || secret == ""
    ensures Verify(signature, timestamp, rawBody, secret, nowMillis, hmacHex, hexDecode)
         == VerificationResult(false, Some(MissingInputs))
  {
  }

  /** A parsed timestamp more than 300 seconds away from now is rejected before any digest is compared. */
  lemma StaleRejected(signature: string, timestamp: string, rawBody: string, secret: string, nowMillis: int,
                      hmacHex: (string, string) -> string, hexDecode: string -> seq<bv8>)
    requires signature != "" && timestamp != "" && secret != ""
    requires !Fresh(timestamp, nowMillis)
    ensures Verify(signature, timestamp, rawBody, secret, nowMillis, hmacHex, hexDecode)
         == VerificationResult(false, Some(StaleTimestamp))
  {
  }

  /**
   * Once the inputs are present and the timestamp is fresh (a difference of
   * exactly 300 seconds is, and so is NaN), the outcome is the signature
   * comparison alone: equal bytes are valid, equal-length different bytes
   * are "Invalid signature", and a length mismatch is caught and reported.
   */
  lemma FreshDecidedBySignature(signature: string, timestamp: string, rawBody: string, secret: string, nowMillis: int,
                                hmacHex: (string, string) -> string, hexDecode: string -> seq<bv8>)
    requires signature != "" && timestamp != "" && secret != ""
    requires Fresh(timestamp, nowMillis)
    ensures var given := hexDecode(signature);
      var expected := hexDecode(hmacHex(secret, SignedPayload(timestamp, rawBody)));
      var r := Verify(signature, timestamp, rawBody, secret, nowMillis, hmacHex, hexDecode);
      && (given == expected ==> r == VerificationResult(true, None))
      && (|given| == |expected| && given != expected ==> r == VerificationResult(false, Some(InvalidSignature)))
      && (|given| != |expected| ==> r == VerificationResult(false, Some("Verification failed: " + LengthMismatch)))
  {
  }

  /** The whole verdict: valid exactly when every check passes. */
  lemma ValidIff(signature: string, timestamp: string, rawBody: string, secret: string, nowMillis: int,
                 hmacHex: (string, string) -> string, hexDecode: string -> seq<bv8>)
    ensures Verify(signature, timestamp, rawBody, secret, nowMillis, hmacHex, hexDecode).isValid
        <==> signature != "" && timestamp != "" && secret != "" && Fresh(timestamp, nowMillis)
             && hexDecode(signature) == hexDecode(hmacHex(secret, SignedPayload(timestamp, rawBody)))
  {
  }

  /** The window is inclusive: exactly 300 seconds either way still passes. */
  lemma WindowBoundary(timestamp: string, nowMillis: int)
    requires ParseInt10(timestamp).Some?
    ensures Abs(nowMillis / 1000 - ParseInt10(timestamp).value) == 300 ==> Fresh(timestamp, nowMillis)
    ensures Abs(nowMillis / 1000 - ParseInt10(timestamp).value) == 301 ==> !Fresh(timestamp, nowMillis)
  {
  }

  // ---------------------------------------------------------------------
  // What parseInt promises

  lemma {:induction false} DigitRunAll(s: string)
    requires forall i | 0 <= i < |s| :: IsDigit(s[i])
    ensures DigitRun(s) == |s|
  {
    if s != [] {
      DigitRunAll(s[1..]);
    }
  }

  lemma {:induction false} NatToStringDigits(n: nat)
    ensures var s := NatToString(n);
      s != [] && (forall i | 0 <= i < |s| :: IsDigit(s[i])) && DigitsValue(s) == n
    decreases n
  {
    var s := NatToString(n);
    if n >= 10 {
      NatToStringDigits(n / 10);
      assert s == NatToString(n / 10) + [DigitChar(n % 10)];
      assert s[..|s| - 1] == NatToString(n / 10);
    }
  }

  /** `parseInt` reads back every integer from its decimal text, so a well-formed timestamp is its value. */
  lemma ParseIntReadsDecimal(i: int)
    ensures ParseInt10(IntToString(i)) == Some(i)
  {
    var n: nat := if i < 0 then -i else i;
    var digits := NatToString(n);
    NatToStringDigits(n);
    DigitRunAll(digits);
    assert digits[..|digits|] == digits;
    var t := IntToString(i);
    if i < 0 {
      assert t == "-" + digits;
      assert t[0] == '-' && !IsJsWhitespace(t[0]);
      assert TrimStart(t) == t;
      assert t[1..] == digits;
    } else {
      assert t == digits;
      assert IsDigit(t[0]) && !IsJsWhitespace(t[0]);
      assert TrimStart(t) == t;
    }
  }

  /**
   * `parseInt` gives NaN exactly when no digit follows the leading white
   * space and one optional sign, and a NaN timestamp is never stale.
   */
  lemma ParseIntNaN(s: string, nowMillis: int)
    ensures var t := TrimStart(s);
      var u := if t != [] && (t[0] == '-' || t[0] == '+') then t[1..] else t;
      ParseInt10(s).None? <==> u == [] || !IsDigit(u[0])
    ensures ParseInt10(s).None? ==> Fresh(s, nowMillis)
  {
  }
}
