/**
 * The request gatekeeping of the api relay's Express app (app/src/app.ts): the CORS `origin`
 * callback, which admits missing origins, the configured frontend and local origins in
 * development (and in production when the frontend itself is local), and the rate-limit key,
 * which prefers the client's fingerprint over its address.
 */
module AppCors {
  import opened Wrappers
  import opened JsText

  /** `callback(null, true)` or `callback(new Error(message))`. */
  datatype CorsDecision = Allow | Reject(message: string)

  const NotAllowedMessage := "Not allowed by CORS"

  /** `s.includes('localhost') || s.includes('127.0.0.1')`. */
  predicate IsLocal(s: string) {
    Includes(s, "localhost") || Includes(s, "127.0.0.1")
  }

  /** `!origin`: no Origin header, or an empty one. */
  predicate NoOrigin(origin: Option<string>) {
    origin.None? || origin.value == ""
  }

  /** The `origin` callback, given the configured frontend URL and NODE_ENV. */
  function AllowOrigin(origin: Option<string>, frontendUrl: string, nodeEnv: string): (d: CorsDecision)
    ensures d.Reject? ==> d.message == NotAllowedMessage
    ensures d == Allow <==>
              || NoOrigin(origin)
              || origin.value == frontendUrl
              || (nodeEnv == "development" && IsLocal(origin.value))
              || (nodeEnv == "production" && IsLocal(frontendUrl) && IsLocal(origin.value))
  {
    if origin.None? || origin.value == "" then Allow
    else if origin.value == frontendUrl then Allow
    else if nodeEnv == "development" && (Includes(origin.value, "localhost") || Includes(origin.value, "127.0.0.1")) then Allow
    else
      var frontendIsLocalhost := Includes(frontendUrl, "localhost") || Includes(frontendUrl, "127.0.0.1");
      if nodeEnv == "production" && frontendIsLocalhost && (Includes(origin.value, "localhost") || Includes(origin.value, "127.0.0.1")) then Allow
      else Reject(NotAllowedMessage)
  }

  /** In production a local origin other than the frontend is admitted exactly when the frontend is local too. */
  lemma ProductionLocalNeedsLocalFrontend(origin: string, frontendUrl: string)
    requires origin != "" && origin != frontendUrl && IsLocal(origin)
    ensures AllowOrigin(Some(origin), frontendUrl, "production") == Allow <==> IsLocal(frontendUrl)
  {
  }

  /** Under any other NODE_ENV only a missing origin or the frontend itself passes. */
  lemma OtherEnvironmentsExactOnly(origin: Option<string>, frontendUrl: string, nodeEnv: string)
    requires nodeEnv != "development" && nodeEnv != "production"
    ensures AllowOrigin(origin, frontendUrl, nodeEnv) == Allow <==> NoOrigin(origin) || origin.value == frontendUrl
  {
  }

  /** A request without an origin is admitted whatever the configuration. */
  lemma NoOriginAlwaysAllowed(frontendUrl: string, nodeEnv: string)
    ensures AllowOrigin(None, frontendUrl, nodeEnv) == Allow && AllowOrigin(Some(""), frontendUrl, nodeEnv) == Allow
  {
  }

  const FingerprintPrefix := "fingerprint:"

  /** The rate-limit `keyGenerator`: the fingerprint when present, else `req.ip`, else the socket's address, else "unknown". */
  function RateLimitKey(fingerprintId: Option<string>, ip: Option<string>, remoteAddress: Option<string>): (k: string)
    ensures k != ""
    ensures fingerprintId.Some? && fingerprintId.value != "" ==> k == FingerprintPrefix + fingerprintId.value
    ensures (fingerprintId.None? || fingerprintId.value == "") && ip.Some? && ip.value != "" ==> k == ip.value
    ensures ((fingerprintId.None? || fingerprintId.value == "") && (ip.None? || ip.value == "") &&
             remoteAddress.Some? && remoteAddress.value != "") ==> k == remoteAddress.value
    ensures ((fingerprintId.None? || fingerprintId.value == "") && (ip.None? || ip.value == "") &&
             (remoteAddress.None? || remoteAddress.value == "")) ==> k == "unknown"
  {
    if fingerprintId.Some? && fingerprintId.value != "" then FingerprintPrefix + fingerprintId.value
    else if ip.Some? && ip.value != "" then ip.value
    else if remoteAddress.Some? && remoteAddress.value != "" then remoteAddress.value
    else "unknown"
  }

  /** Clients with different fingerprints are counted apart, even behind one address. */
  lemma FingerprintsCountedApart(f1: string, f2: string, ip: Option<string>, remoteAddress: Option<string>)
    requires f1 != "" && f2 != "" && f1 != f2
    ensures RateLimitKey(Some(f1), ip, remoteAddress) != RateLimitKey(Some(f2), ip, remoteAddress)
  {
    var k1 := RateLimitKey(Some(f1), ip, remoteAddress);
    var k2 := RateLimitKey(Some(f2), ip, remoteAddress);
    assert k1[|FingerprintPrefix|..] == f1;
    assert k2[|FingerprintPrefix|..] == f2;
  }

  /** A fingerprinted client keeps its key when its address changes. */
  lemma KeyIgnoresAddressWithFingerprint(f: string, ip1: Option<string>, ip2: Option<string>, r1: Option<string>, r2: Option<string>)
    requires f != ""
    ensures RateLimitKey(Some(f), ip1, r1) == RateLimitKey(Some(f), ip2, r2)
  {
  }
}
