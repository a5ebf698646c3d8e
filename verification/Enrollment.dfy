/**
 The five enrollment stages on one machine: offer, challenge, accept, confirm, finalize.

 For every stage there is a guard (everything the stage checks before it writes) and a result
 (what the ledger, the trust records and the outgoing artifact are afterwards). The methods of
 `EnrollmentMachine` run the checks in the source's order and are proved to agree with them.
 */
module Enrollment {
  import opened Options
  import opened Utf16
  import opened JsonGrammar
  import opened Transcripts
  import opened Artifacts
  import opened PeerTrust

  datatype Role = Initiator | Responder

  datatype LedgerStage = Offered | Challenged | Accepted | Confirmed

  datatype LedgerEntry = LedgerEntry(role: Role, stage: LedgerStage, terms: Terms)

  type Ledger = map<Text, LedgerEntry>

  /** A machine's own key: its canonical DER and the base64 form it puts into artifacts. */
  datatype Identity = Identity(key: Text, spki: Text)

  /** A signature that verifies: by this key, over this transcript, with this signature text. */
  datatype Signed = Signed(key: Text, transcript: Text, signature: Text)

  /** What one stage call may consult besides the machine's own records. */
  datatype Call = Call(platform: Platform, identity: Identity, now: int, signatures: set<Signed>) {
    function Self(): Text {
      platform.AuthorityFor(identity.key)
    }

    predicate Verifies(key: Text, s: Statement, signature: Text) {
      Signed(key, Transcript(s), signature) in signatures
    }

    function Sign(s: Statement): Text {
      platform.sign(identity.key, Transcript(s))
    }
  }

  /**
   `Refused` changes nothing. `Stalled` is a stage whose own artifact fails the final check after
   the trust record was written. `Completed` has written everything; `finalize` emits nothing.
   */
  datatype StageResult =
    | Refused
    | Stalled(trust: Trust)
    | Completed(trust: Trust, ledger: Ledger, artifact: Option<Artifact>)

  const DEFAULT_TTL_SECONDS := 300
  const MIN_TTL_SECONDS := 30
  const MAX_TTL_SECONDS := 3600

  /** `boundedTtlSeconds`. */
  function BoundedTtl(ttl: Option<int>): (r: Option<int>)
    ensures r.Some? ==> MIN_TTL_SECONDS <= r.value <= MAX_TTL_SECONDS
  {
    match ttl
    case None => Some(DEFAULT_TTL_SECONDS)
    case Some(t) => if MIN_TTL_SECONDS <= t <= MAX_TTL_SECONDS then Some(t) else None
  }

  predicate SameOptionalPolicy(p: Option<Value>, q: Option<Value>) {
    SamePolicy(ValueOrNull(p), ValueOrNull(q))
  }

  /** `assertEchoesLedgerOrigin`. */
  predicate EchoesOrigin(a: Terms, l: Terms) {
    && a.origin == l.origin && a.destination == l.destination
    && a.originKey == l.originKey && a.originFingerprint == l.originFingerprint
    && SamePolicy(a.originPolicy, l.originPolicy)
    && a.originNonce == l.originNonce && a.issuedAt == l.issuedAt && a.expiresAt == l.expiresAt
  }

  /** `assertEchoesLedgerFull`. */
  predicate EchoesFull(a: Terms, l: Terms) {
    && EchoesOrigin(a, l)
    && a.destinationKey == l.destinationKey && a.destinationFingerprint == l.destinationFingerprint
    && SameOptionalPolicy(a.destinationPolicy, l.destinationPolicy)
    && a.destinationNonce == l.destinationNonce
  }

  /** The presented key parses and is the key that the authority and fingerprint fields name. */
  predicate PresentsKey(platform: Platform, spki: Text, authority: Text, fingerprint: Text) {
    var der := platform.derOf(spki);
    der.Some? && KeyMatches(platform, der.value, authority, fingerprint)
  }

  predicate PresentsDestination(platform: Platform, t: Terms) {
    t.destinationKey.Some? && t.destinationFingerprint.Some?
    && PresentsKey(platform, t.destinationKey.value, t.destination, t.destinationFingerprint.value)
  }

  // ---------------------------------------------------------------- offer

  function OfferTerms(c: Call, peer: Text, policy: Value, ttl: int, nonce: Text, id: Text): Terms {
    Terms(FEDERATION_PROTOCOL_VERSION, id, c.Self(), peer,
      c.identity.spki, c.platform.fingerprintOf(c.identity.key), policy, None, None, None,
      nonce, None, c.platform.formatTime(c.now), c.platform.formatTime(c.now + ttl * 1000))
  }

  function OfferArtifact(c: Call, peer: Text, policy: Value, ttl: int, nonce: Text, id: Text): Artifact {
    var terms := OfferTerms(c, peer, policy, ttl, nonce, id);
    Artifact(terms, c.Sign(Enrollment(Offer, terms)))
  }

  function OfferStage(c: Call, trust: Trust, ledger: Ledger, peer: Text, policy: Value, ttl: Option<int>, nonce: Text,
      id: Text): StageResult {
    if && IsAuthorityId(peer) && c.Self() != peer
       && ValidPolicy(c.platform, policy, c.now) && PolicyPeerIs(policy, peer)
       && BoundedTtl(ttl).Some?
       && ValidArtifact(c.platform, Offer, OfferArtifact(c, peer, policy, BoundedTtl(ttl).value, nonce, id), c.now)
       && id !in ledger
    then
      var a := OfferArtifact(c, peer, policy, BoundedTtl(ttl).value, nonce, id);
      Completed(trust, ledger[id := LedgerEntry(Initiator, Offered, a.terms)], Some(a))
    else Refused
  }

  // ---------------------------------------------------------------- challenge

  /** Everything that is checked before the trust record is asked to advance. */
  predicate ChallengeChecks(c: Call, ledger: Ledger, offer: Artifact, policy: Value) {
    var t := offer.terms;
    && t.destination == c.Self() && t.origin != c.Self()
    && WithinWindow(c.platform, t.issuedAt, t.expiresAt, c.now)
    && PresentsKey(c.platform, t.originKey, t.origin, t.originFingerprint)
    && c.Verifies(c.platform.derOf(t.originKey).value, Enrollment(Offer, t), offer.signature)
    && t.enrollmentId !in ledger
    && ValidPolicy(c.platform, policy, c.now) && PolicyPeerIs(policy, t.origin)
  }

  function ChallengeTerms(c: Call, offer: Terms, policy: Value, nonce: Text): Terms {
    offer.(destinationKey := Some(c.identity.spki),
           destinationFingerprint := Some(c.platform.fingerprintOf(c.identity.key)),
           destinationPolicy := Some(policy), destinationNonce := Some(nonce))
  }

  function ChallengeStage(c: Call, trust: Trust, ledger: Ledger, offer: Artifact, policy: Value,
      nonce: Text): StageResult {
    if !ChallengeChecks(c, ledger, offer, policy) then Refused
    else
      var der := c.platform.derOf(offer.terms.originKey).value;
      if !AdvanceGuard(c.platform, trust, offer.terms.origin, der, policy, c.now) then Refused else
      var trust' := Advanced(c.platform, trust, offer.terms.origin, der, policy, Confirming);
      var terms := ChallengeTerms(c, offer.terms, policy, nonce);
      var a := Artifact(terms, c.Sign(Enrollment(Challenge, terms)));
      if ValidArtifact(c.platform, Challenge, a, c.now) then
        Completed(trust', ledger[terms.enrollmentId := LedgerEntry(Responder, Challenged, terms)], Some(a))
      else Stalled(trust')
  }

  // ---------------------------------------------------------------- accept

  predicate AcceptChecks(c: Call, ledger: Ledger, challenge: Artifact) {
    var t := challenge.terms;
    && t.origin == c.Self() && t.destination != c.Self()
    && t.enrollmentId in ledger && ledger[t.enrollmentId].role == Initiator && ledger[t.enrollmentId].stage == Offered
    && EchoesOrigin(t, ledger[t.enrollmentId].terms)
    && WithinWindow(c.platform, t.issuedAt, t.expiresAt, c.now)
    && PresentsDestination(c.platform, t)
    && c.Verifies(c.platform.derOf(t.destinationKey.value).value, Enrollment(Challenge, t), challenge.signature)
  }

  /** The initiator's own terms with the destination's half of the challenge filled in. */
  function WithDestination(mine: Terms, t: Terms): Terms {
    mine.(destinationKey := t.destinationKey, destinationFingerprint := t.destinationFingerprint,
          destinationPolicy := t.destinationPolicy, destinationNonce := t.destinationNonce)
  }

  function AcceptStage(c: Call, trust: Trust, ledger: Ledger, challenge: Artifact): StageResult {
    if !AcceptChecks(c, ledger, challenge) then Refused
    else
      var t := challenge.terms;
      var mine := ledger[t.enrollmentId].terms;
      var der := c.platform.derOf(t.destinationKey.value).value;
      if !AdvanceGuard(c.platform, trust, t.destination, der, mine.originPolicy, c.now) then Refused else
      var trust' := Advanced(c.platform, trust, t.destination, der, mine.originPolicy, Confirming);
      var a := Artifact(t, c.Sign(Enrollment(Accept, t)));
      if ValidArtifact(c.platform, Accept, a, c.now) then
        Completed(trust', ledger[t.enrollmentId := LedgerEntry(Initiator, Accepted, WithDestination(mine, t))], Some(a))
      else Stalled(trust')
  }

  // ---------------------------------------------------------------- confirm

  predicate ConfirmChecks(c: Call, ledger: Ledger, accept: Artifact) {
    var t := accept.terms;
    && t.destination == c.Self()
    && t.enrollmentId in ledger && ledger[t.enrollmentId].role == Responder
       && ledger[t.enrollmentId].stage == Challenged
    && EchoesFull(t, ledger[t.enrollmentId].terms)
    && WithinWindow(c.platform, t.issuedAt, t.expiresAt, c.now)
    && PresentsKey(c.platform, t.originKey, t.origin, t.originFingerprint)
    && c.Verifies(c.platform.derOf(t.originKey).value, Enrollment(Accept, t), accept.signature)
  }

  function ConfirmStage(c: Call, trust: Trust, ledger: Ledger, accept: Artifact): StageResult {
    if !ConfirmChecks(c, ledger, accept) then Refused
    else
      var t := accept.terms;
      var entry := ledger[t.enrollmentId];
      var der := c.platform.derOf(t.originKey).value;
      var policy := ValueOrNull(entry.terms.destinationPolicy);
      if !AdvanceGuard(c.platform, trust, t.origin, der, policy, c.now) then Refused else
      var trust' := Advanced(c.platform, trust, t.origin, der, policy, Active);
      var a := Artifact(t, c.Sign(Enrollment(Confirm, t)));
      if ValidArtifact(c.platform, Confirm, a, c.now) then
        Completed(trust', ledger[t.enrollmentId := entry.(stage := Confirmed)], Some(a))
      else Stalled(trust')
  }

  // ---------------------------------------------------------------- finalize

  predicate FinalizeChecks(c: Call, ledger: Ledger, confirm: Artifact) {
    var t := confirm.terms;
    && t.origin == c.Self()
    && t.enrollmentId in ledger && ledger[t.enrollmentId].role == Initiator && ledger[t.enrollmentId].stage == Accepted
    && EchoesFull(t, ledger[t.enrollmentId].terms)
    && WithinWindow(c.platform, t.issuedAt, t.expiresAt, c.now)
    && PresentsDestination(c.platform, t)
    && c.Verifies(c.platform.derOf(t.destinationKey.value).value, Enrollment(Confirm, t), confirm.signature)
  }

  function FinalizeStage(c: Call, trust: Trust, ledger: Ledger, confirm: Artifact): StageResult {
    if !FinalizeChecks(c, ledger, confirm) then Refused
    else
      var t := confirm.terms;
      var entry := ledger[t.enrollmentId];
      var der := c.platform.derOf(t.destinationKey.value).value;
      if !AdvanceGuard(c.platform, trust, t.destination, der, entry.terms.originPolicy, c.now) then Refused else
      Completed(Advanced(c.platform, trust, t.destination, der, entry.terms.originPolicy, Active),
                ledger[t.enrollmentId := entry.(stage := Confirmed)], None)
  }

  // ---------------------------------------------------------------- the machine itself

  class EnrollmentMachine {
    const identity: Identity
    const peers: PeerTrustStore
    var ledger: Ledger

    constructor (identity: Identity)
      ensures this.identity == identity && fresh(peers) && peers.records == map[] && ledger == map[]
    {
      this.identity := identity;
      this.peers := new PeerTrustStore();
      this.ledger := map[];
    }

    /** The new state and the returned value are those of `result`. */
    twostate predicate Agrees(result: StageResult, ok: bool, artifact: Option<Artifact>)
      reads this, peers
    {
      match result
      case Refused => !ok && artifact.None? && peers.records == old(peers.records) && ledger == old(ledger)
      case Stalled(trust) => !ok && artifact.None? && peers.records == trust && ledger == old(ledger)
      case Completed(trust, newLedger, output) =>
          ok && artifact == output && peers.records == trust && ledger == newLedger
    }

    method CreateOffer(c: Call, peer: Text, policy: Value, ttl: Option<int>, nonce: Text, id: Text)
        returns (artifact: Option<Artifact>)
      requires c.identity == identity
      modifies this, peers
      ensures Agrees(OfferStage(c, old(peers.records), old(ledger), peer, policy, ttl, nonce, id), artifact.Some?,
                artifact)
    {
      artifact := None;
      if !IsAuthorityId(peer) { return; }
      if c.Self() == peer { return; }
      if !ValidPolicy(c.platform, policy, c.now) { return; }
      if !PolicyPeerIs(policy, peer) { return; }
      var seconds := BoundedTtl(ttl);
      if seconds.None? { return; }
      var terms := OfferTerms(c, peer, policy, seconds.value, nonce, id);
      var a := Artifact(terms, c.Sign(Enrollment(Offer, terms)));
      if !ValidArtifact(c.platform, Offer, a, c.now) { return; }
      if id in ledger { return; }
      ledger := ledger[id := LedgerEntry(Initiator, Offered, terms)];
      artifact := Some(a);
    }

    method CheckChallenge(c: Call, offer: Artifact, policy: Value) returns (ok: bool)
      ensures ok <==> ChallengeChecks(c, ledger, offer, policy)
    {
      var t := offer.terms;
      if t.destination != c.Self() { return false; }
      if t.origin == c.Self() { return false; }
      if !WithinWindow(c.platform, t.issuedAt, t.expiresAt, c.now) { return false; }
      if !PresentsKey(c.platform, t.originKey, t.origin, t.originFingerprint) { return false; }
      if !c.Verifies(c.platform.derOf(t.originKey).value, Enrollment(Offer, t), offer.signature) { return false; }
      if t.enrollmentId in ledger { return false; }
      if !ValidPolicy(c.platform, policy, c.now) { return false; }
      ok := PolicyPeerIs(policy, t.origin);
    }

    method RunChallenge(c: Call, offer: Artifact, policy: Value, nonce: Text) returns (artifact: Option<Artifact>)
      requires c.identity == identity
      modifies this, peers
      ensures Agrees(ChallengeStage(c, old(peers.records), old(ledger), offer, policy, nonce), artifact.Some?, artifact)
    {
      artifact := None;
      var ok := CheckChallenge(c, offer, policy);
      if !ok { return; }
      var t := offer.terms;
      var record := peers.AdvanceFromProof(c.platform, t.origin, c.platform.derOf(t.originKey).value, policy,
          Confirming, c.now);
      if record.None? { return; }
      var terms := ChallengeTerms(c, t, policy, nonce);
      var a := Artifact(terms, c.Sign(Enrollment(Challenge, terms)));
      if !ValidArtifact(c.platform, Challenge, a, c.now) { return; }
      ledger := ledger[terms.enrollmentId := LedgerEntry(Responder, Challenged, terms)];
      artifact := Some(a);
    }

    method CreateChallenge(c: Call, raw: Text, policy: Value, nonce: Text) returns (artifact: Option<Artifact>)
      requires c.identity == identity
      modifies this, peers
      ensures var read := ReadArtifact(c.platform, Offer, raw, c.now);
              Agrees(if read.None? then Refused
                  else ChallengeStage(c, old(peers.records), old(ledger), read.value, policy, nonce), artifact.Some?,
                  artifact)
    {
      artifact := None;
      var read := ReadArtifact(c.platform, Offer, raw, c.now);
      if read.Some? {
        artifact := RunChallenge(c, read.value, policy, nonce);
      }
    }

    method CheckAccept(c: Call, challenge: Artifact) returns (ok: bool)
      ensures ok <==> AcceptChecks(c, ledger, challenge)
    {
      var t := challenge.terms;
      if t.origin != c.Self() { return false; }
      if t.destination == c.Self() { return false; }
      if t.enrollmentId !in ledger || ledger[t.enrollmentId].role != Initiator { return false; }
      var entry := ledger[t.enrollmentId];
      if entry.stage != Offered { return false; }
      if !EchoesOrigin(t, entry.terms) { return false; }
      if !WithinWindow(c.platform, t.issuedAt, t.expiresAt, c.now) { return false; }
      if !PresentsDestination(c.platform, t) { return false; }
      ok := c.Verifies(c.platform.derOf(t.destinationKey.value).value, Enrollment(Challenge, t), challenge.signature);
    }

    method RunAccept(c: Call, challenge: Artifact) returns (artifact: Option<Artifact>)
      requires c.identity == identity
      modifies this, peers
      ensures Agrees(AcceptStage(c, old(peers.records), old(ledger), challenge), artifact.Some?, artifact)
    {
      artifact := None;
      var ok := CheckAccept(c, challenge);
      if !ok { return; }
      var t := challenge.terms;
      var mine := ledger[t.enrollmentId].terms;
      var record := peers.AdvanceFromProof(c.platform, t.destination, c.platform.derOf(t.destinationKey.value).value,
                                           mine.originPolicy, Confirming, c.now);
      if record.None? { return; }
      var a := Artifact(t, c.Sign(Enrollment(Accept, t)));
      if !ValidArtifact(c.platform, Accept, a, c.now) { return; }
      var terms := mine.(destinationKey := t.destinationKey, destinationFingerprint := t.destinationFingerprint,
                         destinationPolicy := t.destinationPolicy, destinationNonce := t.destinationNonce);
      ledger := ledger[t.enrollmentId := LedgerEntry(Initiator, Accepted, terms)];
      artifact := Some(a);
    }

    method CreateAccept(c: Call, raw: Text) returns (artifact: Option<Artifact>)
      requires c.identity == identity
      modifies this, peers
      ensures var read := ReadArtifact(c.platform, Challenge, raw, c.now);
              Agrees(if read.None? then Refused else
                  AcceptStage(c, old(peers.records), old(ledger), read.value), artifact.Some?, artifact)
    {
      artifact := None;
      var read := ReadArtifact(c.platform, Challenge, raw, c.now);
      if read.Some? {
        artifact := RunAccept(c, read.value);
      }
    }

    method CheckConfirm(c: Call, accept: Artifact) returns (ok: bool)
      ensures ok <==> ConfirmChecks(c, ledger, accept)
    {
      var t := accept.terms;
      if t.destination != c.Self() { return false; }
      if t.enrollmentId !in ledger || ledger[t.enrollmentId].role != Responder { return false; }
      var entry := ledger[t.enrollmentId];
      if entry.stage != Challenged { return false; }
      if !EchoesFull(t, entry.terms) { return false; }
      if !WithinWindow(c.platform, t.issuedAt, t.expiresAt, c.now) { return false; }
      if !PresentsKey(c.platform, t.originKey, t.origin, t.originFingerprint) { return false; }
      ok := c.Verifies(c.platform.derOf(t.originKey).value, Enrollment(Accept, t), accept.signature);
    }

    method RunConfirm(c: Call, accept: Artifact) returns (artifact: Option<Artifact>)
      requires c.identity == identity
      modifies this, peers
      ensures Agrees(ConfirmStage(c, old(peers.records), old(ledger), accept), artifact.Some?, artifact)
    {
      artifact := None;
      var ok := CheckConfirm(c, accept);
      if !ok { return; }
      var t := accept.terms;
      var entry := ledger[t.enrollmentId];
      var record := peers.AdvanceFromProof(c.platform, t.origin, c.platform.derOf(t.originKey).value,
                                           ValueOrNull(entry.terms.destinationPolicy), Active, c.now);
      if record.None? { return; }
      var a := Artifact(t, c.Sign(Enrollment(Confirm, t)));
      if !ValidArtifact(c.platform, Confirm, a, c.now) { return; }
      ledger := ledger[t.enrollmentId := entry.(stage := Confirmed)];
      artifact := Some(a);
    }

    method CreateConfirm(c: Call, raw: Text) returns (artifact: Option<Artifact>)
      requires c.identity == identity
      modifies this, peers
      ensures var read := ReadArtifact(c.platform, Accept, raw, c.now);
              Agrees(if read.None? then Refused else
                  ConfirmStage(c, old(peers.records), old(ledger), read.value), artifact.Some?, artifact)
    {
      artifact := None;
      var read := ReadArtifact(c.platform, Accept, raw, c.now);
      if read.Some? {
        artifact := RunConfirm(c, read.value);
      }
    }

    method CheckFinalize(c: Call, confirm: Artifact) returns (ok: bool)
      ensures ok <==> FinalizeChecks(c, ledger, confirm)
    {
      var t := confirm.terms;
      if t.origin != c.Self() { return false; }
      if t.enrollmentId !in ledger || ledger[t.enrollmentId].role != Initiator { return false; }
      var entry := ledger[t.enrollmentId];
      if entry.stage != Accepted { return false; }
      if !EchoesFull(t, entry.terms) { return false; }
      if !WithinWindow(c.platform, t.issuedAt, t.expiresAt, c.now) { return false; }
      if !PresentsDestination(c.platform, t) { return false; }
      ok := c.Verifies(c.platform.derOf(t.destinationKey.value).value, Enrollment(Confirm, t), confirm.signature);
    }

    method RunFinalize(c: Call, confirm: Artifact) returns (ok: bool)
      requires c.identity == identity
      modifies this, peers
      ensures Agrees(FinalizeStage(c, old(peers.records), old(ledger), confirm), ok, None)
    {
      ok := CheckFinalize(c, confirm);
      if !ok { return; }
      var t := confirm.terms;
      var entry := ledger[t.enrollmentId];
      var record := peers.AdvanceFromProof(c.platform, t.destination, c.platform.derOf(t.destinationKey.value).value,
                                           entry.terms.originPolicy, Active, c.now);
      if record.None? { return false; }
      ledger := ledger[t.enrollmentId := entry.(stage := Confirmed)];
    }

    method FinalizeEnrollment(c: Call, raw: Text) returns (ok: bool)
      requires c.identity == identity
      modifies this, peers
      ensures var read := ReadArtifact(c.platform, Confirm, raw, c.now);
              Agrees(if read.None? then Refused else
                  FinalizeStage(c, old(peers.records), old(ledger), read.value), ok, None)
    {
      var read := ReadArtifact(c.platform, Confirm, raw, c.now);
      if read.None? { return false; }
      ok := RunFinalize(c, read.value);
    }
  }
}
