/**
 The signed handshake that opens a relay connection: what the initiator offers, when the
 responder answers, and when the initiator takes the answer for its peer's.
 */
module RelayHandshake {
  import opened Options
  import opened Utf16
  import opened JsonGrammar
  import JsonParser
  import opened Transcripts
  import opened Artifacts
  import opened PeerTrust
  import opened Enrollment

  const RELAY_MAX_FRAME_BYTES := 16_384
  const RELAY_DEFAULT_TTL_SECONDS := 60
  const RELAY_MIN_TTL_SECONDS := 10
  const RELAY_MAX_TTL_SECONDS := 300
  const RELAY_CLOCK_SKEW_TOLERANCE_MS := 30_000
  const MIN_HEARTBEAT_INTERVAL_MS := 100
  const MAX_HEARTBEAT_INTERVAL_MS := 300_000

  datatype Reason =
    | WrongDestination
    | KeyMismatch
    | PeerNotActive
    | PeerTrustMismatch
    | HandshakeExpired
    | InvalidSignature
    | WrongConnection
    | Mutation
    | WrongPeer

  /** An init frame: the signed half, two tuning fields outside the signature, and the signature. */
  datatype InitFrame = InitFrame(init: InitTerms, stateDir: Value, heartbeat: Value, signature: Text)

  datatype AcceptFrame = AcceptFrame(terms: AcceptTerms, signature: Text)

  // ---------------------------------------------------------------- frames

  predicate ValidRelayWindow(platform: Platform, issuedAt: Text, expiresAt: Text) {
    issuedAt != [] && expiresAt != [] &&
    match (platform.parseTime(issuedAt), platform.parseTime(expiresAt))
    case (Some(issued), Some(expires)) => issued < expires && expires - issued <= RELAY_MAX_TTL_SECONDS * 1000
    case _ => false
  }

  predicate ValidInitTerms(platform: Platform, t: InitTerms, now: int) {
    && IsUuid(t.connectionId)
    && IsAuthorityId(t.initiator) && IsAuthorityId(t.responder) && t.initiator != t.responder
    && IsFingerprint(t.initiatorFingerprint)
    && IsBase64(t.initiatorKey)
    && ValidPolicy(platform, t.initiatorPolicy, now)
    && IsNonce(t.nonce)
    && ValidRelayWindow(platform, t.issuedAt, t.expiresAt)
  }

  predicate ValidAcceptTerms(platform: Platform, t: AcceptTerms, now: int) {
    && ValidInitTerms(platform, t.init, now)
    && IsFingerprint(t.responderFingerprint)
    && IsBase64(t.responderKey)
    && ValidPolicy(platform, t.responderPolicy, now)
    && IsNonce(t.responderNonce)
  }

  predicate ValidHeartbeat(v: Value) {
    v == Null ||
    (v.Number? && AllDigits(v.lexeme) &&
     var n := DigitsValue(v.lexeme);
     v.lexeme == Decimal(n) && MIN_HEARTBEAT_INTERVAL_MS <= n <= MAX_HEARTBEAT_INTERVAL_MS)
  }

  const INIT_KEYS: seq<string> := [
    "kind", "version", "channel", "connectionId", "initiatorAuthorityId", "initiatorFingerprint",
    "initiatorPublicKeySpkiB64", "initiatorTransportPolicy", "responderAuthorityId", "stateDir",
    "heartbeatIntervalMs", "nonce", "issuedAt", "expiresAt", "signature"]

  const ACCEPT_KEYS: seq<string> := [
    "kind", "version", "channel", "connectionId", "initiatorAuthorityId", "initiatorFingerprint",
    "initiatorPublicKeySpkiB64", "initiatorTransportPolicy", "responderAuthorityId", "responderFingerprint",
    "responderPublicKeySpkiB64", "responderTransportPolicy", "initiatorNonce", "responderNonce",
    "issuedAt", "expiresAt", "signature"]

  function FieldsInitTerms(fields: seq<Field>, nonceName: string): InitTerms {
    InitTerms(
      GetText(fields, "connectionId"), GetText(fields, "initiatorAuthorityId"), GetText(fields, "initiatorFingerprint"),
      GetText(fields, "initiatorPublicKeySpkiB64"), ValueOrNull(Get(fields, "initiatorTransportPolicy")),
      GetText(fields, "responderAuthorityId"), GetText(fields, nonceName), GetText(fields, "issuedAt"),
          GetText(fields, "expiresAt"))
  }

  function FieldsAcceptTerms(fields: seq<Field>): AcceptTerms {
    AcceptTerms(
      FieldsInitTerms(fields, "initiatorNonce"),
      GetText(fields, "responderFingerprint"), GetText(fields, "responderPublicKeySpkiB64"),
      ValueOrNull(Get(fields, "responderTransportPolicy")), GetText(fields, "responderNonce"))
  }

  predicate HasHead(fields: seq<Field>, kind: string) {
    && Get(fields, "kind") == Some(Str(Ascii(kind)))
    && Get(fields, "version") == Some(Number(Decimal(RELAY_PROTOCOL_VERSION)))
    && Get(fields, "channel") == Some(Str(Ascii(RELAY_CHANNEL_KIND)))
  }

  /** A frame object of a bounded line, or nothing. */
  function ReadFrameFields(raw: Text): Option<seq<Field>> {
    if Utf8Length(raw) > RELAY_MAX_FRAME_BYTES then None
    else
      match JsonParser.ParseDocument(raw, true)
      case Accepted(Object(fields)) => Some(fields)
      case _ => None
  }

  function ReadInit(platform: Platform, raw: Text, now: int): (r: Option<InitFrame>)
    ensures r.Some? ==> ValidInitTerms(platform, r.value.init, now)
  {
    match ReadFrameFields(raw)
    case None => None
    case Some(fields) =>
      var t := FieldsInitTerms(fields, "nonce");
      var stateDir := ValueOrNull(Get(fields, "stateDir"));
      var heartbeat := ValueOrNull(Get(fields, "heartbeatIntervalMs"));
      var signature := GetText(fields, "signature");
      if && ExactKeys(fields, INIT_KEYS) && HasHead(fields, "relayHandshakeInit")
         && (stateDir == Null || stateDir.Str?) && ValidHeartbeat(heartbeat)
         && ValidInitTerms(platform, t, now) && IsBase64(signature)
      then Some(InitFrame(t, stateDir, heartbeat, signature)) else None
  }

  function ReadAccept(platform: Platform, raw: Text, now: int): (r: Option<AcceptFrame>)
    ensures r.Some? ==> ValidAcceptTerms(platform, r.value.terms, now)
  {
    match ReadFrameFields(raw)
    case None => None
    case Some(fields) =>
      var t := FieldsAcceptTerms(fields);
      var signature := GetText(fields, "signature");
      if && ExactKeys(fields, ACCEPT_KEYS) && HasHead(fields, "relayHandshakeAccept")
         && ValidAcceptTerms(platform, t, now) && IsBase64(signature)
      then Some(AcceptFrame(t, signature)) else None
  }

  // ---------------------------------------------------------------- the initiator dials

  /** `boundedTtl`. */
  function BoundedRelayTtl(ttl: Option<int>): (r: Option<int>)
    ensures r.Some? ==> RELAY_MIN_TTL_SECONDS <= r.value <= RELAY_MAX_TTL_SECONDS
  {
    match ttl
    case None => Some(RELAY_DEFAULT_TTL_SECONDS)
    case Some(t) => if RELAY_MIN_TTL_SECONDS <= t <= RELAY_MAX_TTL_SECONDS then Some(t) else None
  }

  function DialTerms(c: Call, record: TrustRecord, peer: Text, ttl: int, connectionId: Text, nonce: Text): InitTerms {
    InitTerms(connectionId, c.Self(), c.platform.fingerprintOf(c.identity.key), c.identity.spki, record.policy, peer,
      nonce, c.platform.formatTime(c.now), c.platform.formatTime(c.now + ttl * 1000))
  }

  /** `start`: dialing needs an active trust record for the peer. */
  function Dial(c: Call, trust: Trust, peer: Text, ttl: Option<int>, connectionId: Text,
      nonce: Text): Option<InitTerms> {
    match (ActiveRecord(trust, peer), BoundedRelayTtl(ttl))
    case (Some(record), Some(seconds)) => Some(DialTerms(c, record, peer, seconds, connectionId, nonce))
    case _ => None
  }

  // ---------------------------------------------------------------- the responder answers

  datatype Answer = Reject(reason: Reason) | Answer(terms: AcceptTerms, record: TrustRecord)

  /** `trustMatchesPresented`: the pinned key, and a policy kind that fits this channel. */
  predicate TrustMatches(record: TrustRecord, fingerprint: Text) {
    record.fingerprint == fingerprint && record.policy.Object? && PolicyIs(record.policy.fields, "loopbackSsh")
  }

  predicate Expired(platform: Platform, expiresAt: Text, now: int) {
    match platform.parseTime(expiresAt)
    case Some(at) => at <= now
    case None => false
  }

  predicate IssuedInFuture(platform: Platform, issuedAt: Text, now: int) {
    match platform.parseTime(issuedAt)
    case Some(at) => at - now > RELAY_CLOCK_SKEW_TOLERANCE_MS
    case None => false
  }

  /** `onHandshakeInit`, after the responder's own identity is loaded. */
  function AnswerInit(c: Call, trust: Trust, frame: InitFrame, nonce: Text): Answer {
    var t := frame.init;
    if t.responder != c.Self() || t.initiator == c.Self() then Reject(WrongDestination)
    else if !PresentsKey(c.platform, t.initiatorKey, t.initiator, t.initiatorFingerprint) then Reject(KeyMismatch)
    else
      match ActiveRecord(trust, t.initiator)
      case None => Reject(PeerNotActive)
      case Some(record) =>
        if !TrustMatches(record, t.initiatorFingerprint) then Reject(PeerTrustMismatch)
        else if Expired(c.platform, t.expiresAt, c.now) || IssuedInFuture(c.platform, t.issuedAt, c.now)
            then Reject(HandshakeExpired)
        else if !c.Verifies(c.platform.derOf(t.initiatorKey).value, RelayInit(t), frame.signature)
            then Reject(InvalidSignature)
        else Answer(AcceptTerms(t, c.platform.fingerprintOf(c.identity.key), c.identity.spki, record.policy, nonce),
            record)
  }

  // ---------------------------------------------------------------- the initiator connects

  /** The accept repeats what this side offered. */
  predicate EchoesInit(a: InitTerms, p: InitTerms) {
    && a.initiator == p.initiator && a.initiatorFingerprint == p.initiatorFingerprint
       && a.initiatorKey == p.initiatorKey
    && SamePolicy(a.initiatorPolicy, p.initiatorPolicy)
    && a.nonce == p.nonce && a.issuedAt == p.issuedAt && a.expiresAt == p.expiresAt
  }

  /** `onHandshakeAccept`: the reason to close, or nothing when the connection is established. */
  function RefuseAccept(c: Call, trust: Trust, pending: Option<InitTerms>, frame: AcceptFrame): Option<Reason> {
    var t := frame.terms;
    if pending.None? || t.init.connectionId != pending.value.connectionId then Some(WrongConnection)
    else if !EchoesInit(t.init, pending.value) then Some(Mutation)
    else if t.init.responder != pending.value.responder then Some(WrongPeer)
    else if Expired(c.platform, t.init.expiresAt, c.now) then Some(HandshakeExpired)
    else
      match ActiveRecord(trust, t.init.responder)
      case None => Some(PeerNotActive)
      case Some(record) =>
        if !PresentsKey(c.platform, t.responderKey, t.init.responder, t.responderFingerprint) then Some(KeyMismatch)
        else if !TrustMatches(record, t.responderFingerprint) then Some(PeerTrustMismatch)
        else if !c.Verifies(c.platform.derOf(t.responderKey).value, RelayAccept(t), frame.signature)
            then Some(InvalidSignature)
        else None
  }
}
