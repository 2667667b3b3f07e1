/** Signed QR payloads: what is signed, how timestamps are normalised, and when a payload is accepted. */
module Qr {
  import opened Domain

  const DRIFT_TOLERANCE_SECONDS: nat := 30

  /** The largest timestamp that is taken to be in seconds already. */
  const MAX_SECONDS: nat := 9999999999

  // ---- The signing input ----------------------------------------------------------------------

  function Digit(d: nat): char
    requires d < 10
  {
    "0123456789"[d]
  }

  /** A natural number as a template literal prints it. */
  function Decimal(n: nat): (s: string)
    ensures s != "" && ':' !in s
  {
    if n < 10 then [Digit(n)] else Decimal(n / 10) + [Digit(n % 10)]
  }

  function DigitValue(c: char): nat
  {
    if '0' <= c <= '9' then c as nat - '0' as nat else 0
  }

  function Value(s: string): nat
  {
    if s == "" then 0 else 10 * Value(s[..|s| - 1]) + DigitValue(s[|s| - 1])
  }

  /** The printer loses nothing: reading a printed number gives it back. */
  lemma {:induction false} ValueOfDecimal(n: nat)
    ensures Value(Decimal(n)) == n
  {
    if n < 10 {
      assert Decimal(n)[..0] == "";
    } else {
      ValueOfDecimal(n / 10);
      var s := Decimal(n);
      assert s[..|s| - 1] == Decimal(n / 10);
    }
  }

  function SigningInput(locationId: string, timestamp: nat): string
  {
    locationId + ":" + Decimal(timestamp)
  }

  /** The last colon of `a:s` stands right after `a` when `s` has none, even if `a` has some. */
  lemma LastColon(a: string, s: string, b: string, t: string)
    requires ':' !in s && ':' !in t && a + ":" + s == b + ":" + t
    ensures a == b && s == t
  {
    var whole := a + ":" + s;
    assert whole[|a|] == ':' && whole[|b|] == ':';
    forall i | |a| < i < |whole| ensures whole[i] != ':' {
      assert whole[i] == s[i - |a| - 1];
    }
    forall i | |b| < i < |whole| ensures whole[i] != ':' {
      assert whole[i] == t[i - |b| - 1];
    }
    assert a == whole[..|a|] && b == whole[..|b|];
    assert s == whole[|a| + 1..] && t == whole[|b| + 1..];
  }

  /** The signing input is unambiguous: it determines the location, colons included, and the timestamp. */
  lemma SigningInputInjective(locationId: string, timestamp: nat, locationId': string, timestamp': nat)
    requires SigningInput(locationId, timestamp) == SigningInput(locationId', timestamp')
    ensures locationId == locationId' && timestamp == timestamp'
  {
    LastColon(locationId, Decimal(timestamp), locationId', Decimal(timestamp'));
    ValueOfDecimal(timestamp);
    ValueOfDecimal(timestamp');
  }

  /** Digits only, no leading zero: the printed form is the one that a template literal gives. */
  lemma {:induction false} DecimalIsCanonical(n: nat)
    ensures var s := Decimal(n);
            && (forall i | 0 <= i < |s| :: '0' <= s[i] <= '9')
            && (s[0] == '0' <==> n == 0) && (n == 0 ==> s == "0")
  {
    if n >= 10 {
      DecimalIsCanonical(n / 10);
    }
  }

  lemma DecimalExamples()
    ensures Decimal(1023) == "1023" && Decimal(45) == "45" && Decimal(678) == "678" && Decimal(9) == "9"
  {
    assert Decimal(1) == "1" && Decimal(10) == "10" && Decimal(102) == "102";
    assert Decimal(4) == "4";
    assert Decimal(6) == "6" && Decimal(67) == "67";
  }

  /** For instance. */
  lemma SigningInputExample()
    ensures SigningInput("zone-7", 1023) == "zone-7:1023" && SigningInput("", 45) == ":45"
  {
    DecimalExamples();
    hide Decimal;
  }

  // ---- Comparing signatures -------------------------------------------------------------------

  /** Length in UTF-16 code units, the `length` of a JavaScript string. */
  function JsLength(s: string): nat
  {
    if s == "" then 0 else JsLength(s[..|s| - 1]) + (if s[|s| - 1] as nat >= 0x10000 then 2 else 1)
  }

  /** Length in bytes after UTF-8 encoding, the length of a `Buffer`. */
  function Utf8Length(s: string): nat
  {
    if s == "" then 0
    else
      var c := s[|s| - 1] as nat;
      Utf8Length(s[..|s| - 1]) + (if c < 0x80 then 1 else if c < 0x800 then 2 else if c < 0x10000 then 3 else 4)
  }

  predicate Ascii(s: string)
  {
    forall i | 0 <= i < |s| :: s[i] as nat < 0x80
  }

  lemma {:induction false} AsciiIff(s: string)
    ensures JsLength(s) <= Utf8Length(s)
    ensures JsLength(s) == Utf8Length(s) <==> Ascii(s)
  {
    if s != "" {
      var n := |s| - 1;
      AsciiIff(s[..n]);
      assert Ascii(s) <==> Ascii(s[..n]) && s[n] as nat < 0x80;
    }
  }

  datatype Comparison = Same | Different | Throws

  /** `safeCompare`: the byte comparison throws when the buffers differ in length. */
  function SafeCompare(a: string, b: string): Comparison
  {
    if JsLength(a) != JsLength(b) then Different
    else if Utf8Length(a) != Utf8Length(b) then Throws
    else if a == b then Same else Different
  }

  /** Against a hexadecimal digest the comparison throws exactly for non-ASCII candidates of its length. */
  lemma CompareThrowsIff(candidate: string, expected: string)
    requires Ascii(expected)
    ensures SafeCompare(candidate, expected) == Throws
            <==> JsLength(candidate) == JsLength(expected) && !Ascii(candidate)
    ensures SafeCompare(candidate, expected) == Same <==> candidate == expected
  {
    AsciiIff(candidate);
    AsciiIff(expected);
  }

  // ---- Payloads -------------------------------------------------------------------------------

  /** HMAC-SHA256 under the configured key, in hexadecimal; nothing else is known about it. */
  type Hmac = string -> string

  ghost predicate AsciiDigests(hmac: Hmac)
  {
    forall data :: Ascii(hmac(data))
  }

  ghost predicate CollisionFree(hmac: Hmac)
  {
    forall x, y :: hmac(x) == hmac(y) ==> x == y
  }

  datatype QrPayload = QrPayload(locationId: string, timestamp: nat, signature: string)

  datatype Verdict = Valid | Expired(drift: nat) | BadSignature | ComparisonError

  function Seconds(now: Time): nat
  {
    now / 1000
  }

  function GeneratePayload(hmac: Hmac, locationId: string, now: Time): QrPayload
  {
    var timestamp := Seconds(now);
    QrPayload(locationId, timestamp, hmac(SigningInput(locationId, timestamp)))
  }

  /** Milliseconds are told from seconds by size alone. */
  function Normalised(timestamp: nat): nat
  {
    if timestamp > MAX_SECONDS then timestamp / 1000 else timestamp
  }

  function Drift(a: nat, b: nat): nat
  {
    if a < b then b - a else a - b
  }

  function ValidateScan(hmac: Hmac, dto: QrPayload, now: Time): Verdict
  {
    var timestamp := Normalised(dto.timestamp);
    var drift := Drift(Seconds(now), timestamp);
    if drift > DRIFT_TOLERANCE_SECONDS then Expired(drift)
    else match SafeCompare(dto.signature, hmac(SigningInput(dto.locationId, timestamp)))
      case Same => Valid
      case Different => BadSignature
      case Throws => ComparisonError
  }

  /** Which verdict, and why: first the age in seconds, then the signature of the named location and second. */
  lemma VerdictIff(hmac: Hmac, dto: QrPayload, now: Time)
    ensures var second := if dto.timestamp > 9999999999 then dto.timestamp / 1000 else dto.timestamp;
            var age := now / 1000 - second;
            var expected := hmac(SigningInput(dto.locationId, second));
            var verdict := ValidateScan(hmac, dto, now);
            && (age > 30 ==> verdict == Expired(age))
            && (age < -30 ==> verdict == Expired(-age))
            && (-30 <= age <= 30 ==>
                  && (verdict == Valid <==> dto.signature == expected)
                  && (verdict == ComparisonError
                      <==> && JsLength(dto.signature) == JsLength(expected)
                           && Utf8Length(dto.signature) != Utf8Length(expected))
                  && (verdict == BadSignature <==> verdict != Valid && verdict != ComparisonError))
  {
  }

  /** A generated payload names the asked location and the current second, and is accepted at once for it. */
  lemma GeneratedNamesLocationAndSecond(hmac: Hmac, locationId: string, now: Time)
    ensures var p := GeneratePayload(hmac, locationId, now);
            && p.locationId == locationId && p.timestamp == now / 1000
            && p.signature == hmac(SigningInput(locationId, now / 1000))
            && (now / 1000 <= 9999999999 ==> ValidateScan(hmac, p, now) == Valid)
  {
  }

  /** And its timestamp and signature are accepted for no other location, if the keyed hash never collides. */
  lemma GeneratedIsForItsLocationOnly(hmac: Hmac, locationId: string, other: string, now: Time)
    requires CollisionFree(hmac) && AsciiDigests(hmac) && now / 1000 <= 9999999999
    ensures ValidateScan(hmac, GeneratePayload(hmac, locationId, now).(locationId := other), now) == Valid
            <==> other == locationId
  {
    var minted := GeneratePayload(hmac, locationId, now);
    SignatureBindsLocationAndSecond(hmac, minted, minted.(locationId := other), now, now);
  }

  /** A second and any of its milliseconds are the same timestamp exactly from 10^7 seconds on (or at 0). */
  lemma NormalisesIff(s: nat, r: nat)
    requires s <= MAX_SECONDS && r < 1000
    ensures Normalised(1000 * s + r) == Normalised(s) <==> s >= 10000000 || (s == 0 && r == 0)
  {
    if s >= 10000000 {
      assert 1000 * s + r > MAX_SECONDS;
      assert (1000 * s + r) / 1000 == s;
    } else {
      assert 1000 * s + r <= MAX_SECONDS;
    }
  }

  /** Hence validation does not depend on the unit of the timestamp. */
  lemma UnitsAgree(hmac: Hmac, dto: QrPayload, r: nat, now: Time)
    requires 10000000 <= dto.timestamp <= MAX_SECONDS && r < 1000
    ensures ValidateScan(hmac, dto.(timestamp := 1000 * dto.timestamp + r), now) == ValidateScan(hmac, dto, now)
  {
    NormalisesIff(dto.timestamp, r);
  }

  /** Until the last ten-digit second, a generated payload is accepted exactly within the tolerance. */
  lemma GeneratedIsAcceptedIff(hmac: Hmac, locationId: string, made: Time, now: Time)
    requires Seconds(made) <= MAX_SECONDS
    ensures ValidateScan(hmac, GeneratePayload(hmac, locationId, made), now) == Valid
            <==> Drift(Seconds(now), Seconds(made)) <= 30
  {
  }

  /** From eleven-digit seconds on, no clock within the tolerance accepts a generated payload. */
  lemma ElevenDigitsAreRefused(hmac: Hmac, locationId: string, made: Time, now: Time)
    requires Drift(Seconds(now), Seconds(made)) <= 30
    ensures ValidateScan(hmac, GeneratePayload(hmac, locationId, made), now) == Valid <==> Seconds(made) <= MAX_SECONDS
  {
    if Seconds(made) > MAX_SECONDS {
      assert Seconds(made) / 1000 + 60 < Seconds(made);
    }
  }

  /** A signature is good for one location and one second only, and then only within the tolerance. */
  lemma SignatureBindsLocationAndSecond(hmac: Hmac, minted: QrPayload, shown: QrPayload, made: Time, now: Time)
    requires CollisionFree(hmac) && AsciiDigests(hmac)
    requires minted == GeneratePayload(hmac, minted.locationId, made) && shown.signature == minted.signature
    ensures ValidateScan(hmac, shown, now) == Valid
            <==> shown.locationId == minted.locationId && Normalised(shown.timestamp) == minted.timestamp
                 && Drift(Seconds(now), minted.timestamp) <= 30
  {
    var timestamp := Normalised(shown.timestamp);
    var expected := hmac(SigningInput(shown.locationId, timestamp));
    assert Ascii(expected);
    CompareThrowsIff(shown.signature, expected);
    if shown.signature == expected {
      SigningInputInjective(shown.locationId, timestamp, minted.locationId, minted.timestamp);
    }
  }
}
