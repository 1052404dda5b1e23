/**
  Request signing. The signer renders the clock reading in decimal, signs
  `timestamp + "." + body` with HMAC-SHA256 keyed by the shared secret, and
  returns three headers. The verifier reads the timestamp back, rejects it
  outside the allowed clock skew and otherwise recomputes the signature.
  HMAC (RFC 2104) over SHA-256 (FIPS 180-4) is a parameter `digest(key, message)`
  whose only known property is its shape: 64 lowercase hexadecimal digits.
  The clock reading `now` is a parameter too.
 */
module Hmac {
  import opened Decimal

  predicate IsLowerHex(c: char) {
    '0' <= c <= '9' || 'a' <= c <= 'f'
  }

  /** A hex-encoded SHA-256 digest. */
  type HexDigest = s: string | |s| == 64 && forall i | 0 <= i < |s| :: IsLowerHex(s[i])
    witness seq(64, i => '0')

  const TimestampHeader := "X-Orch-Timestamp"
  const CallerHeader := "X-Orch-Caller"
  const SignatureHeader := "X-Orch-Signature"

  /** The skew `verify?` allows when its caller names none, in seconds. */
  const DefaultSkew := 300

  function Abs(x: int): nat {
    if x < 0 then -x else x
  }

  /** The signed text: the decimal timestamp, a dot, then the body. */
  function Payload(timestamp: string, body: string): string {
    timestamp + "." + body
  }

  /** `sign`: the three authentication headers for `body` at clock reading `now`. */
  function Sign(digest: (string, string) -> HexDigest, caller: string, secret: string, body: string, now: int): (h: map<string, string>)
    ensures h.Keys == {TimestampHeader, CallerHeader, SignatureHeader}
    ensures h[CallerHeader] == caller
    ensures h[TimestampHeader] == IntToString(now) && ToI(h[TimestampHeader]) == now
    ensures h[SignatureHeader] == digest(secret, Payload(h[TimestampHeader], body))
    ensures |h[SignatureHeader]| == 64
  {
    ToIOfIntToString(now);
    var ts := IntToString(now);
    map[TimestampHeader := ts, CallerHeader := caller, SignatureHeader := digest(secret, Payload(ts, body))]
  }

  /** The timestamp `verify?` reads: a missing header is nil, and nil reads as 0. */
  function HeaderTimestamp(headers: map<string, string>): int {
    if TimestampHeader in headers then ToI(headers[TimestampHeader]) else 0
  }

  /**
    `verify?`: false when the header timestamp is more than `skew` seconds
    away from `now`; otherwise whether the signature header equals the digest
    of the re-rendered timestamp, a dot and the body. The caller identity
    takes no part in the check.
   */
  function Verify(digest: (string, string) -> HexDigest, caller: string, secret: string, body: string,
                  headers: map<string, string>, now: int, skew: int := DefaultSkew): (ok: bool)
    ensures ok ==> Abs(HeaderTimestamp(headers) - now) <= skew
    ensures ok ==> SignatureHeader in headers && |headers[SignatureHeader]| == 64
    ensures ok ==> headers[SignatureHeader] == digest(secret, Payload(IntToString(HeaderTimestamp(headers)), body))
  {
    var ts := HeaderTimestamp(headers);
    if Abs(ts - now) > skew then false
    else SignatureHeader in headers && headers[SignatureHeader] == digest(secret, Payload(IntToString(ts), body))
  }

  /** Outside the window nothing verifies, whatever the signature. */
  lemma StaleHeadersRejected(digest: (string, string) -> HexDigest, caller: string, secret: string, body: string,
                             headers: map<string, string>, now: int, skew: int)
    requires Abs(HeaderTimestamp(headers) - now) > skew
    ensures !Verify(digest, caller, secret, body, headers, now, skew)
  {
  }

  /**
    Headers signed at time `t` verify, for the same secret and body, at
    exactly the clock readings within `skew` of `t`; the caller given to the
    verifier does not matter.
   */
  lemma SignThenVerify(digest: (string, string) -> HexDigest, caller: string, caller': string, secret: string, body: string,
                       t: int, now: int, skew: int)
    ensures Verify(digest, caller', secret, body, Sign(digest, caller, secret, body, t), now, skew) <==> Abs(t - now) <= skew
  {
    var h := Sign(digest, caller, secret, body, t);
    assert HeaderTimestamp(h) == t;
  }

  /** With the default skew, fresh headers verify for five minutes either side of signing. */
  lemma DefaultWindow(digest: (string, string) -> HexDigest, caller: string, secret: string, body: string, t: int, now: int)
    ensures Verify(digest, caller, secret, body, Sign(digest, caller, secret, body, t), now) <==> -300 <= now - t <= 300
  {
    SignThenVerify(digest, caller, caller, secret, body, t, now, DefaultSkew);
  }

  /** A different body fails verification whenever the digest tells the two payloads apart. */
  lemma OtherBodyRejected(digest: (string, string) -> HexDigest, caller: string, secret: string, body: string, body': string,
                          t: int, now: int, skew: int)
    requires digest(secret, Payload(IntToString(t), body)) != digest(secret, Payload(IntToString(t), body'))
    ensures !Verify(digest, caller, secret, body', Sign(digest, caller, secret, body, t), now, skew)
  {
    var h := Sign(digest, caller, secret, body, t);
    assert HeaderTimestamp(h) == t;
  }
}
