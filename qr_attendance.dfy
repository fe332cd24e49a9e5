/**
 * The daily attendance token: `AREEJ-ATT-<date>-<digest>`, where the digest is the
 * first ten hexadecimal characters of HMAC-SHA256 (RFC 2104 over FIPS 180-4) of
 * `AREEJ-ATTENDANCE-<date>` under the server secret, and its four-step validator.
 *
 * The keyed hash is a parameter `mac` (the secret is folded into it); what the model
 * relies on is that its hex encoding is 64 lower-case hexadecimal characters.
 * The server's current local date is the parameter `today`.
 */
module QrAttendance {
  import opened Wrappers
  import opened Text

  const TokenPrefix: string := "AREEJ-ATT-"
  const MacPrefix: string := "AREEJ-ATTENDANCE-"
  const DigestLength: nat := 10

  const MsgMissing: string := "رمز QR غير صالح"
  const MsgMalformed: string := "صيغة رمز QR غير صحيحة"
  const MsgForged: string := "رمز QR غير صحيح"
  const MsgExpired: string := "رمز QR منتهي الصلاحية، يرجى مسح الرمز اليومي الحالي"
  const MsgValid: string := "رمز QR صحيح"

  /** The hex-encoded keyed hash of a message under the server secret. */
  type Mac = string -> string

  predicate IsHexDigest(h: string) {
    |h| == 64 && forall i :: 0 <= i < |h| ==> IsLowerHex(h[i])
  }

  /** HMAC-SHA256 hex output is always 64 lower-case hexadecimal characters. */
  ghost predicate IsHmacHex(mac: Mac) {
    forall m :: IsHexDigest(mac(m))
  }

  /** `\d{4}-\d{2}-\d{2}` */
  predicate DateShaped(d: string) {
    && |d| == 10
    && IsDigit(d[0]) && IsDigit(d[1]) && IsDigit(d[2]) && IsDigit(d[3])
    && d[4] == '-'
    && IsDigit(d[5]) && IsDigit(d[6])
    && d[7] == '-'
    && IsDigit(d[8]) && IsDigit(d[9])
  }

  /** `[a-f0-9]{10}` */
  predicate DigestShaped(g: string) {
    |g| == DigestLength && forall i :: 0 <= i < |g| ==> IsLowerHex(g[i])
  }

  /** The token as a string: the inverse of `Parse`. */
  function Serialize(date: string, digest: string): string {
    TokenPrefix + date + "-" + digest
  }

  /** The whole-string regular expression `^AREEJ-ATT-(\d{4}-\d{2}-\d{2})-([a-f0-9]{10})$`,
      stated as "some date and digest of the right shapes serialise to `s`". */
  ghost predicate MatchesTokenRegex(s: string) {
    exists d: string, g: string :: DateShaped(d) && DigestShaped(g) && s == Serialize(d, g)
  }

  /** `hmac.digest('hex').substring(0, 10)`: at most the first ten characters. */
  function Digest(date: string, mac: Mac): (g: string)
    ensures |g| <= DigestLength
    ensures IsHmacHex(mac) ==> DigestShaped(g)
  {
    var h := mac(MacPrefix + date);
    if |h| <= DigestLength then h else h[..DigestLength]
  }

  /** `generateDailyQRValue(date)` */
  function Generate(date: string, mac: Mac): (t: string)
    ensures |t| == |TokenPrefix| + |date| + 1 + |Digest(date, mac)|
    ensures StartsWith(t, TokenPrefix) && t[|TokenPrefix|..|TokenPrefix| + |date|] == date
  {
    Serialize(date, Digest(date, mac))
  }

  /** The regex match: the date group and the digest group, or `None` when the string
      does not match. */
  function Parse(s: string): (r: Option<(string, string)>)
    ensures r.Some? ==> DateShaped(r.value.0) && DigestShaped(r.value.1)
    ensures r.Some? ==> s == Serialize(r.value.0, r.value.1)
  {
    if && |s| == 31
       && s[..10] == TokenPrefix
       && DateShaped(s[10..20])
       && s[20] == '-'
       && DigestShaped(s[21..])
    then
      assert s == Serialize(s[10..20], s[21..]);
      Some((s[10..20], s[21..]))
    else
      None
  }

  /** The parser recognises exactly the strings the regular expression matches. */
  lemma ParseMatchesRegex(s: string)
    ensures Parse(s).Some? <==> MatchesTokenRegex(s)
  {
    if MatchesTokenRegex(s) {
      var d: string, g: string :| DateShaped(d) && DigestShaped(g) && s == Serialize(d, g);
      assert s[..10] == TokenPrefix && s[10..20] == d && s[20] == '-' && s[21..] == g;
    }
  }

  /** The validator's answer: whether the token is valid, the embedded date (empty when
      none could be read) and the message shown to the worker. */
  datatype Validation = Validation(valid: bool, date: string, message: string)

  /** `validateQRCode(qrValue)`: presence, shape, digest, then the date. `None` stands
      for an absent or non-string value. */
  function Validate(qr: Option<string>, today: string, mac: Mac): (r: Validation)
    ensures (qr.None? || qr == Some("")) ==> r == Validation(false, "", MsgMissing)
    ensures qr.Some? && qr.value != "" && Parse(qr.value).None? ==>
              r == Validation(false, "", MsgMalformed)
    ensures r.valid ==> r.date == today && r.message == MsgValid
    ensures r.date != "" ==> DateShaped(r.date) && qr.Some? && StartsWith(qr.value, TokenPrefix + r.date)
  {
    if qr.None? || qr.value == "" then Validation(false, "", MsgMissing)
    else
      match Parse(qr.value)
      case None => Validation(false, "", MsgMalformed)
      case Some((date, provided)) =>
        assert (TokenPrefix + date + "-" + provided)[..|TokenPrefix + date|] == TokenPrefix + date;
        var expectedDigest := LastPiece(Generate(date, mac), '-');
        if provided != expectedDigest then Validation(false, date, MsgForged)
        else if date != today then Validation(false, date, MsgExpired)
        else Validation(true, date, MsgValid)
  }

  /** The digest read back with `split('-').pop()` from a generated token is exactly the
      ten-character digest: the date's hyphens all come before it. */
  lemma GeneratedLastPiece(date: string, mac: Mac)
    requires IsHmacHex(mac)
    ensures LastPiece(Generate(date, mac), '-') == Digest(date, mac)
  {
    var g := Digest(date, mac);
    assert '-' !in g by {
      forall i | 0 <= i < |g| ensures g[i] != '-' { assert IsLowerHex(g[i]); }
    }
    assert Generate(date, mac) == (TokenPrefix + date) + ['-'] + g;
    LastPieceAfter(TokenPrefix + date, '-', g);
  }

  /** Round trip of the wire format: parsing a serialised token gives back its parts. */
  lemma ParseSerialize(d: string, g: string)
    requires DateShaped(d) && DigestShaped(g)
    ensures Parse(Serialize(d, g)) == Some((d, g))
  {
    var s := Serialize(d, g);
    assert s[..10] == TokenPrefix && s[10..20] == d && s[20] == '-' && s[21..] == g;
  }

  /** For every date of the form `\d{4}-\d{2}-\d{2}`, the generated token matches the
      validation regex, and only for those dates. */
  lemma GenerateMatchesRegex(date: string, mac: Mac)
    requires IsHmacHex(mac)
    ensures MatchesTokenRegex(Generate(date, mac)) <==> DateShaped(date)
    ensures DateShaped(date) ==> Parse(Generate(date, mac)) == Some((date, Digest(date, mac)))
  {
    var t := Generate(date, mac);
    ParseMatchesRegex(t);
    if DateShaped(date) {
      ParseSerialize(date, Digest(date, mac));
    } else if |t| == 31 {
      assert t[10..20] == date;
    }
  }

  /** A well-formed token whose digest is not the expected one is rejected as incorrect,
      keeps its embedded date, and this is decided before the date is compared with today. */
  lemma ValidateForged(d: string, g: string, today: string, mac: Mac)
    requires IsHmacHex(mac)
    requires DateShaped(d) && DigestShaped(g) && g != Digest(d, mac)
    ensures Validate(Some(Serialize(d, g)), today, mac) == Validation(false, d, MsgForged)
  {
    ParseSerialize(d, g);
    GeneratedLastPiece(d, mac);
  }

  /** A token with the correct digest for another day is rejected as expired and still
      reports its date. */
  lemma ValidateExpired(d: string, today: string, mac: Mac)
    requires IsHmacHex(mac)
    requires DateShaped(d) && d != today
    ensures Validate(Some(Serialize(d, Digest(d, mac))), today, mac) == Validation(false, d, MsgExpired)
  {
    ParseSerialize(d, Digest(d, mac));
    GeneratedLastPiece(d, mac);
  }

  /** Today's token is accepted with today's date. */
  lemma ValidateToday(today: string, mac: Mac)
    requires IsHmacHex(mac)
    requires DateShaped(today)
    ensures Validate(Some(Generate(today, mac)), today, mac) == Validation(true, today, MsgValid)
  {
    ParseSerialize(today, Digest(today, mac));
    GeneratedLastPiece(today, mac);
  }

  /** Round trip: the validator accepts a generated token exactly when its date is a
      well-formed date equal to today, and then reports that date. */
  lemma RoundTrip(d: string, today: string, mac: Mac)
    requires IsHmacHex(mac)
    ensures Validate(Some(Generate(d, mac)), today, mac).valid <==> DateShaped(d) && d == today
    ensures Validate(Some(Generate(d, mac)), today, mac).valid ==>
              Validate(Some(Generate(d, mac)), today, mac).date == d
  {
    GenerateMatchesRegex(d, mac);
    if DateShaped(d) {
      if d == today { ValidateToday(d, mac); } else { ValidateExpired(d, today, mac); }
    }
  }

  /** Tampering: replacing one digest character of a generated token with a different
      lower-case hex digit makes it fail at the digest check, never at the shape check. */
  lemma Tamper(d: string, today: string, mac: Mac, k: nat, c: char)
    requires IsHmacHex(mac)
    requires DateShaped(d)
    requires 21 <= k < 31 && IsLowerHex(c)
    requires c != Generate(d, mac)[k]
    ensures Validate(Some(Generate(d, mac)[k := c]), today, mac) == Validation(false, d, MsgForged)
  {
    var g := Digest(d, mac);
    var g' := g[k - 21 := c];
    assert Generate(d, mac)[k := c] == Serialize(d, g');
    assert g'[k - 21] != g[k - 21];
    ValidateForged(d, g', today, mac);
  }

  /** A digest of the wrong length, or one holding a character outside `[a-f0-9]` (an
      upper-case hex digit, say), fails the shape check: empty date, malformed message. */
  lemma ValidateBadDigestShape(d: string, g: string, today: string, mac: Mac)
    requires DateShaped(d) && !DigestShaped(g)
    ensures Validate(Some(Serialize(d, g)), today, mac) == Validation(false, "", MsgMalformed)
  {
    var s := Serialize(d, g);
    assert s[21..] == g;
  }

  /** The concrete case of an old, correctly signed token: on 2024-06-01 the token for
      2024-01-01 is expired, not forged, and reports 2024-01-01. */
  lemma ExpiredExample(mac: Mac)
    requires IsHmacHex(mac)
    requires Digest("2024-01-01", mac) == "abc123de99"
    ensures Validate(Some("AREEJ-ATT-2024-01-01-abc123de99"), "2024-06-01", mac)
              == Validation(false, "2024-01-01", MsgExpired)
  {
    assert "AREEJ-ATT-2024-01-01-abc123de99" == Serialize("2024-01-01", Digest("2024-01-01", mac));
    ValidateExpired("2024-01-01", "2024-06-01", mac);
  }
}
