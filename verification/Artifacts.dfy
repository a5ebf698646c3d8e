/**
 Enrollment artifacts on the wire: the bounds, key sets and field checks that stand between a
 raw text and the terms it carries.

 A number is compared by its spelling: a version, a port or a heartbeat interval has to be written in
 canonical decimal, where the source also takes other spellings of the same integer, such as `22.0`.
 */
module Artifacts {
  import opened Options
  import opened Utf16
  import opened JsonGrammar
  import JsonParser
  import JsonTheorems
  import opened Transcripts

  /**
   The parts of the platform that the protocol only calls: `Date.parse` and `toISOString`, the
   canonical DER of a base64 SPKI key, the SHA-256 fingerprint of a DER, deterministic signing
   with the private half of a key, and the Tailscale address test.
   */
  datatype Platform = Platform(
    parseTime: Text -> Option<int>,
    formatTime: int -> Text,
    derOf: Text -> Option<Text>,
    fingerprintOf: Text -> Text,
    sign: (Text, Text) -> Text,
    isTailscaleAddress: Text -> bool)
  {
    function AuthorityFor(der: Text): Text {
      Ascii("authority-") + fingerprintOf(der)
    }
  }

  const FEDERATION_PROTOCOL_VERSION := 1
  const ENROLLMENT_MAX_ARTIFACT_BYTES := 8192
  const ENROLLMENT_MIN_NONCE_HEX_LENGTH := 64
  const ENROLLMENT_MAX_TTL_MS := 60 * 60 * 1000
  const CLOCK_SKEW_TOLERANCE_MS := 30_000

  /** No two keys share a fingerprint: the ideal form of SHA-256. */
  ghost predicate Injective(platform: Platform) {
    forall d, e :: platform.fingerprintOf(d) == platform.fingerprintOf(e) ==> d == e
  }

  // ---------------------------------------------------------------- field checks

  predicate IsSpace(u: Unit) {
    0x09 <= u <= 0x0D || u == 0x20 || u == 0xA0 || u == 0x1680 || 0x2000 <= u <= 0x200A || u == 0x2028 || u == 0x2029
    || u == 0x202F || u == 0x205F || u == 0x3000 || u == 0xFEFF
  }

  predicate NonBlank(t: Text) {
    exists i | 0 <= i < |t| :: !IsSpace(t[i])
  }

  predicate IsLowerHex(u: Unit) {
    IsDigit(u) || 0x61 <= u <= 0x66
  }

  predicate AllLowerHex(t: Text) {
    forall i | 0 <= i < |t| :: IsLowerHex(t[i])
  }

  predicate IsUuid(t: Text) {
    |t| == 36 && forall i | 0 <= i < 36 ::
        if i == 8 || i == 13 || i == 18 || i == 23 then t[i] == MINUS else IsLowerHex(t[i])
  }

  predicate IsFingerprint(t: Text) {
    |t| == 64 && AllLowerHex(t)
  }

  predicate IsNonce(t: Text) {
    |t| >= ENROLLMENT_MIN_NONCE_HEX_LENGTH && AllLowerHex(t)
  }

  predicate IsBase64Unit(u: Unit) {
    IsDigit(u) || 0x41 <= u <= 0x5A || 0x61 <= u <= 0x7A || u == PLUS || u == 0x2F
  }

  predicate IsBase64(t: Text) {
    && |t| % 4 == 0 && |t| > 0
    && (forall i | 0 <= i < |t| - 2 :: IsBase64Unit(t[i]))
    && (IsBase64Unit(t[|t| - 1]) || t[|t| - 1] == 0x3D)
    && (IsBase64Unit(t[|t| - 2]) || (t[|t| - 2] == 0x3D && t[|t| - 1] == 0x3D))
  }

  /** Length in UTF-8; a lone surrogate counts as the three-byte replacement character. */
  function Utf8Length(t: Text): nat {
    if t == [] then 0
    else if |t| >= 2 && IsHighSurrogate(t[0]) && IsLowSurrogate(t[1]) then 4 + Utf8Length(t[2..])
    else (if t[0] < 0x80 then 1 else if t[0] < 0x800 then 2 else 3) + Utf8Length(t[1..])
  }

  function Get(fields: seq<Field>, name: string): Option<Value> {
    if fields == [] then None
    else if fields[0].key == Ascii(name) then Some(fields[0].value)
    else Get(fields[1..], name)
  }

  /** The text of a field, or the empty text, which no check accepts. */
  function GetText(fields: seq<Field>, name: string): Text {
    match Get(fields, name)
    case Some(Str(s)) => s
    case _ => []
  }

  predicate ExactKeys(fields: seq<Field>, names: seq<string>) {
    && (forall i | 0 <= i < |fields| :: exists j | 0 <= j < |names| :: fields[i].key == Ascii(names[j]))
    && (forall j | 0 <= j < |names| :: HasKey(fields, Ascii(names[j])))
  }

  function DigitsValue(t: Text): nat
    requires AllDigits(t)
  {
    if t == [] then 0 else 10 * DigitsValue(t[..|t| - 1]) + (t[|t| - 1] - 0x30)
  }

  predicate IsPort(v: Option<Value>) {
    v.Some? && v.value.Number? && AllDigits(v.value.lexeme)
    && (var n := DigitsValue(v.value.lexeme); 1 <= n <= 65535 && v.value.lexeme == Decimal(n))
  }

  // ---------------------------------------------------------------- transport policies

  predicate PolicyIs(fields: seq<Field>, kind: string) {
    Get(fields, "kind") == Some(Str(Ascii(kind)))
  }

  predicate ValidPolicyFields(platform: Platform, fields: seq<Field>, now: int) {
    if PolicyIs(fields, "localUnix") then
      && ExactKeys(fields, ["kind", "path"])
      && NonBlank(GetText(fields, "path")) && GetText(fields, "path")[0] == 0x2F
    else if PolicyIs(fields, "loopbackSsh") then
      && ExactKeys(fields, ["kind", "peerAuthorityId", "sshDestination", "sshUser", "localEndpoint", "localPort"])
      && NonBlank(GetText(fields, "peerAuthorityId"))
      && NonBlank(GetText(fields, "sshDestination"))
      && NonBlank(GetText(fields, "sshUser"))
      && GetText(fields, "localEndpoint") in [Ascii("127.0.0.1"), Ascii("::1"), Ascii("localhost")]
      && IsPort(Get(fields, "localPort"))
    else
      && PolicyIs(fields, "tailscalePeer")
      && ExactKeys(fields, ["kind", "peerAuthorityId", "address", "nodeIdentity", "verifiedAt"])
      && platform.isTailscaleAddress(GetText(fields, "address"))
      && NonBlank(GetText(fields, "peerAuthorityId"))
      && NonBlank(GetText(fields, "nodeIdentity"))
      && NonBlank(GetText(fields, "verifiedAt"))
      && (match platform.parseTime(GetText(fields, "verifiedAt")) case Some(at) => at <= now case None => false)
  }

  /** `validateTransportPolicy`. Printable and unique keys are what any JavaScript value satisfies. */
  predicate ValidPolicy(platform: Platform, policy: Value, now: int) {
    && policy.Object?
    && JsonTheorems.Printable(policy) && UniqueKeys(policy)
    && ValidPolicyFields(platform, policy.fields, now)
  }

  /** A policy that names a remote peer must name this one. */
  predicate PolicyPeerIs(policy: Value, peer: Text) {
    policy.Object? && (PolicyIs(policy.fields, "localUnix") || GetText(policy.fields, "peerAuthorityId") == peer)
  }

  // ---------------------------------------------------------------- artifacts

  /** A stage artifact is its terms and a signature over their transcript. */
  datatype Artifact = Artifact(terms: Terms, signature: Text)

  predicate ValidWindow(platform: Platform, issuedAt: Text, expiresAt: Text) {
    NonBlank(issuedAt) && NonBlank(expiresAt) &&
    match (platform.parseTime(issuedAt), platform.parseTime(expiresAt))
    case (Some(issued), Some(expires)) => issued < expires && expires - issued <= ENROLLMENT_MAX_TTL_MS
    case _ => false
  }

  /** `assertNotExpired`. */
  predicate WithinWindow(platform: Platform, issuedAt: Text, expiresAt: Text, now: int) {
    match (platform.parseTime(issuedAt), platform.parseTime(expiresAt))
    case (Some(issued), Some(expires)) => now < expires && issued - now <= CLOCK_SKEW_TOLERANCE_MS
    case _ => false
  }

  /** The half of the checks that an offer shares with every later artifact. */
  predicate ValidOriginHalf(platform: Platform, a: Artifact, now: int) {
    && a.terms.version == FEDERATION_PROTOCOL_VERSION
    && IsUuid(a.terms.enrollmentId)
    && NonBlank(a.terms.origin) && NonBlank(a.terms.destination) && a.terms.origin != a.terms.destination
    && IsBase64(a.terms.originKey)
    && IsFingerprint(a.terms.originFingerprint)
    && ValidPolicy(platform, a.terms.originPolicy, now) && PolicyPeerIs(a.terms.originPolicy, a.terms.destination)
    && IsNonce(a.terms.originNonce)
    && ValidWindow(platform, a.terms.issuedAt, a.terms.expiresAt)
    && IsBase64(a.signature)
  }

  predicate ValidArtifact(platform: Platform, stage: Stage, a: Artifact, now: int) {
    && ValidOriginHalf(platform, a, now)
    && if stage == Offer then
         a.terms.destinationKey == None && a.terms.destinationFingerprint == None && a.terms.destinationPolicy == None
             && a.terms.destinationNonce == None
       else
         && a.terms.destinationKey.Some? && IsBase64(a.terms.destinationKey.value)
         && a.terms.destinationFingerprint.Some? && IsFingerprint(a.terms.destinationFingerprint.value)
         && a.terms.destinationPolicy.Some?
         && ValidPolicy(platform, a.terms.destinationPolicy.value, now)
            && PolicyPeerIs(a.terms.destinationPolicy.value, a.terms.origin)
         && a.terms.destinationNonce.Some? && IsNonce(a.terms.destinationNonce.value)
  }

  function ArtifactKind(stage: Stage): string {
    match stage
    case Offer => "enrollmentOffer"
    case Challenge => "enrollmentChallenge"
    case Accept => "enrollmentAccept"
    case Confirm => "enrollmentConfirm"
  }

  const OFFER_KEYS: seq<string> := [
    "kind", "version", "enrollmentId", "origin", "destination",
    "originPublicKeySpkiB64", "originFingerprint", "originTransportPolicy",
    "originNonce", "issuedAt", "expiresAt", "signature"]

  const FULL_KEYS: seq<string> := [
    "kind", "version", "enrollmentId", "origin", "destination",
    "originPublicKeySpkiB64", "originFingerprint", "originTransportPolicy",
    "destinationPublicKeySpkiB64", "destinationFingerprint", "destinationTransportPolicy",
    "originNonce", "destinationNonce", "issuedAt", "expiresAt", "signature"]

  /** The fields of an artifact object as terms and signature. */
  function FieldsArtifact(stage: Stage, fields: seq<Field>): Artifact {
    Artifact(
      Terms(
        FEDERATION_PROTOCOL_VERSION,
        GetText(fields, "enrollmentId"), GetText(fields, "origin"), GetText(fields, "destination"),
        GetText(fields, "originPublicKeySpkiB64"), GetText(fields, "originFingerprint"),
        ValueOrNull(Get(fields, "originTransportPolicy")),
        if stage == Offer then None else Some(GetText(fields, "destinationPublicKeySpkiB64")),
        if stage == Offer then None else Some(GetText(fields, "destinationFingerprint")),
        if stage == Offer then None else Get(fields, "destinationTransportPolicy"),
        GetText(fields, "originNonce"),
        if stage == Offer then None else Some(GetText(fields, "destinationNonce")),
        GetText(fields, "issuedAt"), GetText(fields, "expiresAt")),
      GetText(fields, "signature"))
  }

  /** From raw text to a checked artifact: size bound, strict parse, exact keys, field checks. */
  function ReadArtifact(platform: Platform, stage: Stage, raw: Text, now: int): (r: Option<Artifact>)
    ensures r.Some? ==> ValidArtifact(platform, stage, r.value, now)
  {
    if Utf8Length(raw) > ENROLLMENT_MAX_ARTIFACT_BYTES then None
    else
      match JsonParser.ParseDocument(raw, true)
      case Accepted(Object(fields)) =>
        var a := FieldsArtifact(stage, fields);
        if && ExactKeys(fields, if stage == Offer then OFFER_KEYS else FULL_KEYS)
           && Get(fields, "kind") == Some(Str(Ascii(ArtifactKind(stage))))
           && Get(fields, "version") == Some(Number(Decimal(FEDERATION_PROTOCOL_VERSION)))
           && ValidArtifact(platform, stage, a, now)
        then Some(a) else None
      case _ => None
  }

  /** Checked artifacts carry statements that have transcripts of their own. */
  lemma ValidArtifactIsSignable(platform: Platform, stage: Stage, a: Artifact, now: int)
    requires ValidArtifact(platform, stage, a, now)
    ensures Signable(Enrollment(Offer, a.terms)) && Signable(Enrollment(Challenge, a.terms))
    ensures Signable(Enrollment(Accept, a.terms)) && Signable(Enrollment(Confirm, a.terms))
  {
  }

  /** `assertKeyMatchesArtifact`: key, fingerprint and authority id name one identity. */
  predicate KeyMatches(platform: Platform, der: Text, authority: Text, fingerprint: Text) {
    platform.fingerprintOf(der) == fingerprint && platform.AuthorityFor(der) == authority
  }

  /** With an injective fingerprint, an authority id belongs to one key. */
  lemma AuthorityNamesOneKey(platform: Platform, d: Text, e: Text)
    requires Injective(platform)
    requires platform.AuthorityFor(d) == platform.AuthorityFor(e)
    ensures d == e
  {
    var prefix := Ascii("authority-");
    assert platform.fingerprintOf(d) == platform.AuthorityFor(d)[|prefix|..];
    assert platform.fingerprintOf(e) == platform.AuthorityFor(e)[|prefix|..];
  }
}
