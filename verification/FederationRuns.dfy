/**
 What enrollment and the relay handshake achieve when nothing goes wrong, and what the clock decides.

 The other theorems say what must have come before an event. These say that the event does come, for
 every pair of honest machines, every spelling of the artifacts and every clock within the window; and
 that outside the window nothing is written.
 */
module FederationRuns {
  import opened Options
  import opened Utf16
  import opened JsonGrammar
  import opened Transcripts
  import opened Artifacts
  import opened PeerTrust
  import opened Enrollment
  import opened RelayHandshake
  import opened Federation
  import opened ArtifactTexts

  /** What the called parts of the platform are there for. */
  ghost predicate Lawful(platform: Platform) {
    && (forall t: int :: platform.parseTime(platform.formatTime(t)) == Some(t) && NonBlank(platform.formatTime(t)))
    && (forall key: Text :: IsFingerprint(platform.fingerprintOf(key)))
    && (forall key: Text, transcript: Text :: IsBase64(platform.sign(key, transcript)))
  }

  /** Two machines, what each asks for, and the moment at which `a` makes its offer. */
  datatype Pairing = Pairing(
    a: Text, identityA: Identity, policyA: Value, nonceA: Text,
    b: Text, identityB: Identity, policyB: Value, nonceB: Text,
    id: Text, ttl: Option<int>, start: int)
  {
    function Seconds(): int {
      if ttl.Some? then ttl.value else 300
    }

    predicate InTime(now: int) {
      start - 30_000 <= now < start + Seconds() * 1000
    }
  }

  ghost predicate WellFormed(platform: Platform, p: Pairing) {
    && p.a != p.b && IdentityOk(platform, p.a, p.identityA) && IdentityOk(platform, p.b, p.identityB)
    && IsBase64(p.identityA.spki) && IsBase64(p.identityB.spki)
    && IsUuid(p.id) && IsNonce(p.nonceA) && IsNonce(p.nonceB)
    && 30 <= p.Seconds() <= 3600
  }

  /** Both policies pass their checks at this time and name the other machine. */
  predicate PoliciesHold(platform: Platform, p: Pairing, now: int) {
    && ValidPolicy(platform, p.policyA, now) && PolicyPeerIs(p.policyA, p.b)
    && ValidPolicy(platform, p.policyB, now) && PolicyPeerIs(p.policyB, p.a)
  }

  /**
   The machines are there, the enrollment id is new to both, and neither has pinned or revoked the other
   otherwise.
   */
  ghost predicate MayEnroll(platform: Platform, w: World, p: Pairing) {
    && p.a in w.machines && w.machines[p.a].identity == p.identityA && p.id !in w.machines[p.a].ledger
    && p.b in w.machines && w.machines[p.b].identity == p.identityB && p.id !in w.machines[p.b].ledger
    && MayPin(platform, w.machines[p.a].trust, p.b, p.identityB.key, p.policyA)
    && MayPin(platform, w.machines[p.b].trust, p.a, p.identityA.key, p.policyB)
  }

  // ---------------------------------------------------------------- what is said between them

  function FullTerms(platform: Platform, p: Pairing): Terms {
    Terms(1, p.id, p.a, p.b, p.identityA.spki, platform.fingerprintOf(p.identityA.key), p.policyA,
      Some(p.identityB.spki), Some(platform.fingerprintOf(p.identityB.key)), Some(p.policyB), p.nonceA, Some(p.nonceB),
      platform.formatTime(p.start), platform.formatTime(p.start + p.Seconds() * 1000))
  }

  function OfferedTerms(platform: Platform, p: Pairing): Terms {
    FullTerms(platform, p).(destinationKey := None, destinationFingerprint := None, destinationPolicy := None,
                            destinationNonce := None)
  }

  /** The artifact of each stage: the initiator signs offer and accept, the responder challenge and confirm. */
  function ArtifactOf(platform: Platform, p: Pairing, stage: Stage): Artifact {
    var terms := if stage == Offer then OfferedTerms(platform, p) else FullTerms(platform, p);
    var key := if stage == Offer || stage == Accept then p.identityA.key else p.identityB.key;
    Artifact(terms, platform.sign(key, Transcript(Enrollment(stage, terms))))
  }

  lemma ArtifactIsValid(platform: Platform, p: Pairing, stage: Stage, now: int)
    requires Lawful(platform) && WellFormed(platform, p) && PoliciesHold(platform, p, now)
    requires NonBlank(p.a) && NonBlank(p.b)
    ensures ValidArtifact(platform, stage, ArtifactOf(platform, p, stage), now)
  {
  }

  lemma AuthorityIsWellFormed(platform: Platform, p: Pairing)
    requires Lawful(platform) && WellFormed(platform, p)
    ensures IsAuthorityId(p.a) && IsAuthorityId(p.b) && NonBlank(p.a) && NonBlank(p.b)
  {
    AuthorityOfKey(platform, p.identityA.key);
    AuthorityOfKey(platform, p.identityB.key);
  }

  lemma AuthorityOfKey(platform: Platform, key: Text)
    requires Lawful(platform)
    ensures IsAuthorityId(platform.AuthorityFor(key)) && NonBlank(platform.AuthorityFor(key))
  {
    var id := platform.AuthorityFor(key);
    assert id[..10] == Ascii("authority-") && id[10..] == platform.fingerprintOf(key);
    assert id[0] == Ascii("authority-")[0] == 0x61;
    assert !IsSpace(id[0]);
  }

  // ---------------------------------------------------------------- each stage completes

  /** The signature of a stage is out. */
  ghost predicate Sent(platform: Platform, w: World, p: Pairing, stage: Stage) {
    var key := if stage == Offer || stage == Accept then p.identityA.key else p.identityB.key;
    var a := ArtifactOf(platform, p, stage);
    Signed(key, Transcript(Enrollment(stage, a.terms)), a.signature) in w.signatures
  }

  /** How far the two machines are, and what was said last. */
  ghost predicate Reached(platform: Platform, w: World, p: Pairing, entryA: LedgerEntry, entryB: Option<LedgerEntry>,
      said: Stage) {
    && p.a in w.machines && w.machines[p.a].identity == p.identityA
    && p.id in w.machines[p.a].ledger && w.machines[p.a].ledger[p.id] == entryA
    && p.b in w.machines && w.machines[p.b].identity == p.identityB
    && (if entryB.None? then p.id !in w.machines[p.b].ledger
        else p.id in w.machines[p.b].ledger && w.machines[p.b].ledger[p.id] == entryB.value)
    && MayPin(platform, w.machines[p.a].trust, p.b, p.identityB.key, p.policyA)
    && MayPin(platform, w.machines[p.b].trust, p.a, p.identityA.key, p.policyB)
    && Sent(platform, w, p, said)
  }

  /** An active record that pins this key. */
  ghost predicate Trusts(platform: Platform, trust: Trust, peer: Text, key: Text, policy: Value) {
    && peer in trust && trust[peer].state == Active && trust[peer].key == key
    && trust[peer].fingerprint == platform.fingerprintOf(key) && SamePolicy(trust[peer].policy, policy)
  }

  lemma AdvancePins(platform: Platform, trust: Trust, peer: Text, key: Text, policy: Value, toState: TrustState)
    requires MayPin(platform, trust, peer, key, policy) && (toState == Confirming || toState == Active)
    ensures var after := Advanced(platform, trust, peer, key, policy, toState);
            && MayPin(platform, after, peer, key, policy)
            && (toState == Active ==> Trusts(platform, after, peer, key, policy))
            && (peer !in trust ==> after[peer].policy == policy)
            && (peer in trust && trust[peer].policy == policy ==> after[peer].policy == policy)
  {
  }

  /** A completed stage that does not crash: both records are written, and its artifact is out. */
  lemma ReturnWrites(platform: Platform, w: World, me: Text, r: StageResult, proof: Option<Event>,
      stage: Option<Stage>, id: Text)
    requires me in w.machines && r.Completed?
    ensures var w' := Return(platform, w, me, r, NoCrash, proof, stage, id);
            && w'.machines == w.machines[me := w.machines[me].(trust := r.trust, ledger := r.ledger)]
            && w.signatures <= w'.signatures
            && (stage.Some? && r.artifact.Some? ==>
                  var key := w.machines[me].identity.key;
                  var text := Transcript(Enrollment(stage.value, r.artifact.value.terms));
                  Signed(key, text, platform.sign(key, text)) in w'.signatures)
  {
  }

  /** Either machine's advance is let through. */
  lemma GuardsHold(platform: Platform, p: Pairing, now: int, trust: Trust)
    requires Lawful(platform) && WellFormed(platform, p) && PoliciesHold(platform, p, now)
    ensures AdvanceGuard(platform, trust, p.b, p.identityB.key, p.policyA, now)
            <==> MayPin(platform, trust, p.b, p.identityB.key, p.policyA)
    ensures AdvanceGuard(platform, trust, p.a, p.identityA.key, p.policyB, now)
            <==> MayPin(platform, trust, p.a, p.identityA.key, p.policyB)
  {
    AuthorityIsWellFormed(platform, p);
  }

  lemma WindowIsOpen(platform: Platform, p: Pairing, now: int)
    requires Lawful(platform) && p.InTime(now)
    ensures var t := FullTerms(platform, p); WithinWindow(platform, t.issuedAt, t.expiresAt, now)
  {
  }

  lemma KeysMatch(platform: Platform, p: Pairing)
    requires WellFormed(platform, p)
    ensures var t := FullTerms(platform, p);
            && PresentsKey(platform, t.originKey, t.origin, t.originFingerprint) && PresentsDestination(platform, t)
            && platform.derOf(t.originKey).value == p.identityA.key
            && platform.derOf(t.destinationKey.value).value == p.identityB.key
  {
  }

  /** What each check needs of the clock, the keys and the signature. */
  ghost predicate CallIs(platform: Platform, p: Pairing, c: Call, me: Identity, said: Stage) {
    && Lawful(platform) && WellFormed(platform, p) && PoliciesHold(platform, p, c.now) && p.InTime(c.now)
    && c.platform == platform && c.identity == me
    && var key := if said == Offer || said == Accept then p.identityA.key else p.identityB.key;
       var a := ArtifactOf(platform, p, said);
       Signed(key, Transcript(Enrollment(said, a.terms)), a.signature) in c.signatures
  }

  lemma OfferStageCompletes(platform: Platform, c: Call, p: Pairing, trust: Trust, ledger: Ledger)
    requires Lawful(platform) && WellFormed(platform, p) && PoliciesHold(platform, p, c.now) && c.now == p.start
    requires c.platform == platform && c.identity == p.identityA && p.id !in ledger
    ensures OfferStage(c, trust, ledger, p.b, p.policyA, p.ttl, p.nonceA, p.id)
              == Completed(trust, ledger[p.id := LedgerEntry(Initiator, Offered, OfferedTerms(platform, p))],
                     Some(ArtifactOf(platform, p, Offer)))
  {
    AuthorityIsWellFormed(platform, p);
    ArtifactIsValid(platform, p, Offer, c.now);
    OfferIsMade(platform, c, p);
  }

  lemma OfferIsMade(platform: Platform, c: Call, p: Pairing)
    requires WellFormed(platform, p) && c.now == p.start && c.platform == platform && c.identity == p.identityA
    ensures BoundedTtl(p.ttl) == Some(p.Seconds()) && c.Self() == p.a
    ensures OfferArtifact(c, p.b, p.policyA, p.Seconds(), p.nonceA, p.id) == ArtifactOf(platform, p, Offer)
  {
    assert OfferTerms(c, p.b, p.policyA, p.Seconds(), p.nonceA, p.id) == OfferedTerms(platform, p);
  }

  lemma ChallengeIsChecked(platform: Platform, c: Call, p: Pairing, ledger: Ledger)
    requires CallIs(platform, p, c, p.identityB, Offer) && p.id !in ledger
    ensures ChallengeChecks(c, ledger, ArtifactOf(platform, p, Offer), p.policyB)
  {
    WindowIsOpen(platform, p, c.now);
    KeysMatch(platform, p);
  }

  lemma ChallengeStageCompletes(platform: Platform, c: Call, p: Pairing, trust: Trust, ledger: Ledger)
    requires CallIs(platform, p, c, p.identityB, Offer) && p.id !in ledger
    requires MayPin(platform, trust, p.a, p.identityA.key, p.policyB)
    ensures ChallengeStage(c, trust, ledger, ArtifactOf(platform, p, Offer), p.policyB, p.nonceB)
              == Completed(Advanced(platform, trust, p.a, p.identityA.key, p.policyB, Confirming),
                     ledger[p.id := LedgerEntry(Responder, Challenged, FullTerms(platform, p))],
                     Some(ArtifactOf(platform, p, Challenge)))
  {
    AuthorityIsWellFormed(platform, p);
    ArtifactIsValid(platform, p, Challenge, c.now);
    ChallengeIsChecked(platform, c, p, ledger);
    GuardsHold(platform, p, c.now, trust);
    assert ChallengeTerms(c, OfferedTerms(platform, p), p.policyB, p.nonceB) == FullTerms(platform, p);
  }

  lemma AcceptIsChecked(platform: Platform, c: Call, p: Pairing, ledger: Ledger)
    requires CallIs(platform, p, c, p.identityA, Challenge)
    requires p.id in ledger && ledger[p.id] == LedgerEntry(Initiator, Offered, OfferedTerms(platform, p))
    ensures AcceptChecks(c, ledger, ArtifactOf(platform, p, Challenge))
  {
    WindowIsOpen(platform, p, c.now);
    KeysMatch(platform, p);
  }

  lemma AcceptStageCompletes(platform: Platform, c: Call, p: Pairing, trust: Trust, ledger: Ledger)
    requires CallIs(platform, p, c, p.identityA, Challenge)
    requires p.id in ledger && ledger[p.id] == LedgerEntry(Initiator, Offered, OfferedTerms(platform, p))
    requires MayPin(platform, trust, p.b, p.identityB.key, p.policyA)
    ensures AcceptStage(c, trust, ledger, ArtifactOf(platform, p, Challenge))
              == Completed(Advanced(platform, trust, p.b, p.identityB.key, p.policyA, Confirming),
                     ledger[p.id := LedgerEntry(Initiator, Accepted, FullTerms(platform, p))],
                     Some(ArtifactOf(platform, p, Accept)))
  {
    AuthorityIsWellFormed(platform, p);
    ArtifactIsValid(platform, p, Accept, c.now);
    AcceptIsChecked(platform, c, p, ledger);
    GuardsHold(platform, p, c.now, trust);
    assert WithDestination(OfferedTerms(platform, p), FullTerms(platform, p)) == FullTerms(platform, p);
  }

  lemma ConfirmIsChecked(platform: Platform, c: Call, p: Pairing, ledger: Ledger)
    requires CallIs(platform, p, c, p.identityB, Accept)
    requires p.id in ledger && ledger[p.id] == LedgerEntry(Responder, Challenged, FullTerms(platform, p))
    ensures ConfirmChecks(c, ledger, ArtifactOf(platform, p, Accept))
  {
    WindowIsOpen(platform, p, c.now);
    KeysMatch(platform, p);
  }

  lemma ConfirmStageCompletes(platform: Platform, c: Call, p: Pairing, trust: Trust, ledger: Ledger)
    requires CallIs(platform, p, c, p.identityB, Accept)
    requires p.id in ledger && ledger[p.id] == LedgerEntry(Responder, Challenged, FullTerms(platform, p))
    requires MayPin(platform, trust, p.a, p.identityA.key, p.policyB)
    ensures ConfirmStage(c, trust, ledger, ArtifactOf(platform, p, Accept))
              == Completed(Advanced(platform, trust, p.a, p.identityA.key, p.policyB, Active),
                     ledger[p.id := LedgerEntry(Responder, Confirmed, FullTerms(platform, p))],
                     Some(ArtifactOf(platform, p, Confirm)))
  {
    AuthorityIsWellFormed(platform, p);
    ArtifactIsValid(platform, p, Confirm, c.now);
    ConfirmIsChecked(platform, c, p, ledger);
    GuardsHold(platform, p, c.now, trust);
  }

  lemma FinalizeIsChecked(platform: Platform, c: Call, p: Pairing, ledger: Ledger)
    requires CallIs(platform, p, c, p.identityA, Confirm)
    requires p.id in ledger && ledger[p.id] == LedgerEntry(Initiator, Accepted, FullTerms(platform, p))
    ensures FinalizeChecks(c, ledger, ArtifactOf(platform, p, Confirm))
  {
    WindowIsOpen(platform, p, c.now);
    KeysMatch(platform, p);
  }

  lemma FinalizeStageCompletes(platform: Platform, c: Call, p: Pairing, trust: Trust, ledger: Ledger)
    requires CallIs(platform, p, c, p.identityA, Confirm)
    requires p.id in ledger && ledger[p.id] == LedgerEntry(Initiator, Accepted, FullTerms(platform, p))
    requires MayPin(platform, trust, p.b, p.identityB.key, p.policyA)
    ensures FinalizeStage(c, trust, ledger, ArtifactOf(platform, p, Confirm))
              == Completed(Advanced(platform, trust, p.b, p.identityB.key, p.policyA, Active),
                     ledger[p.id := LedgerEntry(Initiator, Confirmed, FullTerms(platform, p))], None)
  {
    FinalizeIsChecked(platform, c, p, ledger);
    GuardsHold(platform, p, c.now, trust);
  }

  // ---------------------------------------------------------------- step by step

  /** What `a` and `b` hold from stage to stage. */
  function Entry(platform: Platform, p: Pairing, role: Role, stage: LedgerStage): LedgerEntry {
    LedgerEntry(role, stage, if stage == Offered then OfferedTerms(platform, p) else FullTerms(platform, p))
  }

  /** A stage of `a` that completes with this entry. */
  lemma ReturnOfA(platform: Platform, w: World, p: Pairing, r: StageResult, proof: Option<Event>, trust: Trust,
      entryA: LedgerEntry, entry: LedgerEntry, entryB: Option<LedgerEntry>, said: Stage, stage: Stage)
    requires p.a != p.b && Reached(platform, w, p, entryA, entryB, said) && stage == Accept
    requires r == Completed(trust, w.machines[p.a].ledger[p.id := entry], Some(ArtifactOf(platform, p, stage)))
    requires MayPin(platform, trust, p.b, p.identityB.key, p.policyA)
    ensures Reached(platform, Return(platform, w, p.a, r, NoCrash, proof, Some(stage), p.id), p, entry, entryB, stage)
  {
    ReturnWrites(platform, w, p.a, r, proof, Some(stage), p.id);
  }

  lemma ReturnOfB(platform: Platform, w: World, p: Pairing, r: StageResult, proof: Option<Event>, trust: Trust,
      entryA: LedgerEntry, entryB: Option<LedgerEntry>, entry: LedgerEntry, said: Stage, stage: Stage)
    requires p.a != p.b && Reached(platform, w, p, entryA, entryB, said) && (stage == Challenge || stage == Confirm)
    requires r == Completed(trust, w.machines[p.b].ledger[p.id := entry], Some(ArtifactOf(platform, p, stage)))
    requires MayPin(platform, trust, p.a, p.identityA.key, p.policyB)
    ensures Reached(platform, Return(platform, w, p.b, r, NoCrash, proof, Some(stage), p.id), p, entryA, Some(entry),
                stage)
  {
    ReturnWrites(platform, w, p.b, r, proof, Some(stage), p.id);
  }

  /** `raw` spells the artifact of this stage, and is not too long for the reader. */
  ghost predicate Delivered(platform: Platform, p: Pairing, stage: Stage, raw: Text) {
    Spells(raw, ArtifactValue(stage, ArtifactOf(platform, p, stage))) && Utf8Length(raw) <= 8192
  }

  lemma DeliveredIsRead(platform: Platform, p: Pairing, stage: Stage, raw: Text, now: int)
    requires Lawful(platform) && WellFormed(platform, p) && PoliciesHold(platform, p, now)
    requires Delivered(platform, p, stage, raw)
    ensures ReadArtifact(platform, stage, raw, now) == Some(ArtifactOf(platform, p, stage))
  {
    AuthorityIsWellFormed(platform, p);
    ArtifactIsValid(platform, p, stage, now);
    ArtifactReadsBack(platform, stage, ArtifactOf(platform, p, stage), raw, now);
  }

  /** The text that `said` left with arrives at a well-formed pairing within the window. */
  ghost predicate Arrives(platform: Platform, p: Pairing, said: Stage, raw: Text, now: int) {
    && Lawful(platform) && WellFormed(platform, p) && PoliciesHold(platform, p, now) && p.InTime(now)
    && Delivered(platform, p, said, raw)
  }

  lemma OfferCompletes(platform: Platform, w: World, p: Pairing)
    requires Lawful(platform) && WellFormed(platform, p) && MayEnroll(platform, w, p)
    requires PoliciesHold(platform, p, p.start)
    ensures Reached(platform, Next(platform, w, DoOffer(p.a, p.b, p.policyA, p.ttl, p.nonceA, p.id, p.start, NoCrash)),
                p, Entry(platform, p, Initiator, Offered), None, Offer)
  {
    var c, m := CallOf(platform, w, p.a, p.start), w.machines[p.a];
    var r := OfferStage(c, m.trust, m.ledger, p.b, p.policyA, p.ttl, p.nonceA, p.id);
    OfferStageCompletes(platform, c, p, m.trust, m.ledger);
    ReturnWrites(platform, w, p.a, r, None, Some(Offer), p.id);
  }

  /** The result of a stage that advances the peer to `toState` and comes to `entry`. */
  function Done(platform: Platform, m: Machine, p: Pairing, toA: bool, toState: TrustState, entry: LedgerEntry,
      artifact: Option<Artifact>): StageResult {
    var trust := if toA then Advanced(platform, m.trust, p.a, p.identityA.key, p.policyB, toState)
                 else Advanced(platform, m.trust, p.b, p.identityB.key, p.policyA, toState);
    Completed(trust, m.ledger[p.id := entry], artifact)
  }

  // The step of a stage whose text has been read.

  lemma NextIsChallenge(platform: Platform, w: World, me: Text, raw: Text, policy: Value, nonce: Text, now: int)
    requires me in w.machines
    ensures Next(platform, w, DoChallenge(me, raw, policy, nonce, now, NoCrash))
            == ChallengeStep(platform, w, me, ReadArtifact(platform, Offer, raw, now), policy, nonce, now, NoCrash)
  {
  }

  lemma ChallengeStepIs(platform: Platform, w: World, me: Text, a: Artifact, policy: Value, nonce: Text, now: int)
    requires me in w.machines
    ensures var m := w.machines[me];
            ChallengeStep(platform, w, me, Some(a), policy, nonce, now, NoCrash)
            == Return(platform, w, me,
                ChallengeStage(CallOf(platform, w, me, now), m.trust, m.ledger, a, policy, nonce), NoCrash,
                   None, Some(Challenge), a.terms.enrollmentId)
  {
  }

  lemma NextIsAccept(platform: Platform, w: World, me: Text, raw: Text, now: int)
    requires me in w.machines
    ensures Next(platform, w, DoAccept(me, raw, now, NoCrash))
            == AcceptStep(platform, w, me, ReadArtifact(platform, Challenge, raw, now), now, NoCrash)
  {
  }

  lemma AcceptStepIs(platform: Platform, w: World, me: Text, a: Artifact, now: int)
    requires me in w.machines
    ensures var m := w.machines[me];
            AcceptStep(platform, w, me, Some(a), now, NoCrash)
            == Return(platform, w, me, AcceptStage(CallOf(platform, w, me, now), m.trust, m.ledger, a), NoCrash,
                   None, Some(Accept), a.terms.enrollmentId)
  {
  }

  lemma NextIsConfirm(platform: Platform, w: World, me: Text, raw: Text, now: int)
    requires me in w.machines
    ensures Next(platform, w, DoConfirm(me, raw, now, NoCrash))
            == ConfirmStep(platform, w, me, ReadArtifact(platform, Accept, raw, now), now, NoCrash)
  {
  }

  lemma ConfirmStepIs(platform: Platform, w: World, me: Text, a: Artifact, now: int)
    requires me in w.machines
    ensures var m := w.machines[me];
            ConfirmStep(platform, w, me, Some(a), now, NoCrash)
            == Return(platform, w, me, ConfirmStage(CallOf(platform, w, me, now), m.trust, m.ledger, a), NoCrash,
                   Some(Activated(me, a.terms.origin, a.terms.enrollmentId, Responder)), Some(Confirm),
                       a.terms.enrollmentId)
  {
  }

  lemma NextIsFinalize(platform: Platform, w: World, me: Text, raw: Text, now: int)
    requires me in w.machines
    ensures Next(platform, w, DoFinalize(me, raw, now, NoCrash))
            == FinalizeStep(platform, w, me, ReadArtifact(platform, Confirm, raw, now), now, NoCrash)
  {
  }

  lemma FinalizeStepIs(platform: Platform, w: World, me: Text, a: Artifact, now: int)
    requires me in w.machines
    ensures var m := w.machines[me];
            FinalizeStep(platform, w, me, Some(a), now, NoCrash)
            == Return(platform, w, me, FinalizeStage(CallOf(platform, w, me, now), m.trust, m.ledger, a), NoCrash,
                   Some(Activated(me, a.terms.destination, a.terms.enrollmentId, Initiator)), None,
                       a.terms.enrollmentId)
  {
  }

  lemma ChallengeOutcome(platform: Platform, w: World, p: Pairing, now: int)
    requires Lawful(platform) && WellFormed(platform, p) && PoliciesHold(platform, p, now) && p.InTime(now)
    requires Reached(platform, w, p, Entry(platform, p, Initiator, Offered), None, Offer)
    ensures var r := Done(platform, w.machines[p.b], p, true, Confirming, Entry(platform, p, Responder, Challenged),
                         Some(ArtifactOf(platform, p, Challenge)));
            ChallengeStage(CallOf(platform, w, p.b, now), w.machines[p.b].trust, w.machines[p.b].ledger,
                ArtifactOf(platform, p, Offer), p.policyB, p.nonceB) == r
  {
    var m := w.machines[p.b];
    ChallengeStageCompletes(platform, CallOf(platform, w, p.b, now), p, m.trust, m.ledger);
  }

  lemma ChallengeIsRun(platform: Platform, w: World, p: Pairing, raw: Text, now: int)
    requires Arrives(platform, p, Offer, raw, now)
    requires Reached(platform, w, p, Entry(platform, p, Initiator, Offered), None, Offer)
    ensures var r := Done(platform, w.machines[p.b], p, true, Confirming, Entry(platform, p, Responder, Challenged),
                         Some(ArtifactOf(platform, p, Challenge)));
            Next(platform, w, DoChallenge(p.b, raw, p.policyB, p.nonceB, now, NoCrash))
            == Return(platform, w, p.b, r, NoCrash, None, Some(Challenge), p.id)
  {
    DeliveredIsRead(platform, p, Offer, raw, now);
    NextIsChallenge(platform, w, p.b, raw, p.policyB, p.nonceB, now);
    ChallengeStepIs(platform, w, p.b, ArtifactOf(platform, p, Offer), p.policyB, p.nonceB, now);
    ChallengeOutcome(platform, w, p, now);
  }

  lemma ChallengeCompletes(platform: Platform, w: World, p: Pairing, raw: Text, now: int)
    requires Arrives(platform, p, Offer, raw, now)
    requires Reached(platform, w, p, Entry(platform, p, Initiator, Offered), None, Offer)
    ensures Reached(platform, Next(platform, w, DoChallenge(p.b, raw, p.policyB, p.nonceB, now, NoCrash)), p,
                Entry(platform, p, Initiator, Offered), Some(Entry(platform, p, Responder, Challenged)), Challenge)
  {
    var m, entry := w.machines[p.b], Entry(platform, p, Responder, Challenged);
    var r := Done(platform, m, p, true, Confirming, entry, Some(ArtifactOf(platform, p, Challenge)));
    ChallengeIsRun(platform, w, p, raw, now);
    AdvancePins(platform, m.trust, p.a, p.identityA.key, p.policyB, Confirming);
    ReturnOfB(platform, w, p, r, None, r.trust, Entry(platform, p, Initiator, Offered), None, entry, Offer, Challenge);
  }

  lemma AcceptOutcome(platform: Platform, w: World, p: Pairing, now: int)
    requires Lawful(platform) && WellFormed(platform, p) && PoliciesHold(platform, p, now) && p.InTime(now)
    requires Reached(platform, w, p, Entry(platform, p, Initiator, Offered),
                 Some(Entry(platform, p, Responder, Challenged)), Challenge)
    ensures var r := Done(platform, w.machines[p.a], p, false, Confirming, Entry(platform, p, Initiator, Accepted),
                         Some(ArtifactOf(platform, p, Accept)));
            AcceptStage(CallOf(platform, w, p.a, now), w.machines[p.a].trust, w.machines[p.a].ledger,
                ArtifactOf(platform, p, Challenge)) == r
  {
    var m := w.machines[p.a];
    AcceptStageCompletes(platform, CallOf(platform, w, p.a, now), p, m.trust, m.ledger);
  }

  lemma AcceptIsRun(platform: Platform, w: World, p: Pairing, raw: Text, now: int)
    requires Arrives(platform, p, Challenge, raw, now)
    requires Reached(platform, w, p, Entry(platform, p, Initiator, Offered),
                 Some(Entry(platform, p, Responder, Challenged)), Challenge)
    ensures var r := Done(platform, w.machines[p.a], p, false, Confirming, Entry(platform, p, Initiator, Accepted),
                         Some(ArtifactOf(platform, p, Accept)));
            Next(platform, w, DoAccept(p.a, raw, now, NoCrash))
            == Return(platform, w, p.a, r, NoCrash, None, Some(Accept), p.id)
  {
    DeliveredIsRead(platform, p, Challenge, raw, now);
    NextIsAccept(platform, w, p.a, raw, now);
    AcceptStepIs(platform, w, p.a, ArtifactOf(platform, p, Challenge), now);
    AcceptOutcome(platform, w, p, now);
  }

  lemma AcceptCompletes(platform: Platform, w: World, p: Pairing, raw: Text, now: int)
    requires Arrives(platform, p, Challenge, raw, now)
    requires Reached(platform, w, p, Entry(platform, p, Initiator, Offered),
                 Some(Entry(platform, p, Responder, Challenged)), Challenge)
    ensures Reached(platform, Next(platform, w, DoAccept(p.a, raw, now, NoCrash)), p,
                Entry(platform, p, Initiator, Accepted), Some(Entry(platform, p, Responder, Challenged)), Accept)
  {
    var m, entry := w.machines[p.a], Entry(platform, p, Initiator, Accepted);
    var r := Done(platform, m, p, false, Confirming, entry, Some(ArtifactOf(platform, p, Accept)));
    AcceptIsRun(platform, w, p, raw, now);
    AdvancePins(platform, m.trust, p.b, p.identityB.key, p.policyA, Confirming);
    ReturnOfA(platform, w, p, r, None, r.trust, Entry(platform, p, Initiator, Offered), entry,
        Some(Entry(platform, p, Responder, Challenged)), Challenge, Accept);
  }

  lemma ConfirmOutcome(platform: Platform, w: World, p: Pairing, now: int)
    requires Lawful(platform) && WellFormed(platform, p) && PoliciesHold(platform, p, now) && p.InTime(now)
    requires Reached(platform, w, p, Entry(platform, p, Initiator, Accepted),
                 Some(Entry(platform, p, Responder, Challenged)), Accept)
    ensures var r := Done(platform, w.machines[p.b], p, true, Active, Entry(platform, p, Responder, Confirmed),
                         Some(ArtifactOf(platform, p, Confirm)));
            ConfirmStage(CallOf(platform, w, p.b, now), w.machines[p.b].trust, w.machines[p.b].ledger,
                ArtifactOf(platform, p, Accept)) == r
  {
    var m := w.machines[p.b];
    ConfirmStageCompletes(platform, CallOf(platform, w, p.b, now), p, m.trust, m.ledger);
  }

  lemma ConfirmIsRun(platform: Platform, w: World, p: Pairing, raw: Text, now: int)
    requires Arrives(platform, p, Accept, raw, now)
    requires Reached(platform, w, p, Entry(platform, p, Initiator, Accepted),
                 Some(Entry(platform, p, Responder, Challenged)), Accept)
    ensures var r := Done(platform, w.machines[p.b], p, true, Active, Entry(platform, p, Responder, Confirmed),
                         Some(ArtifactOf(platform, p, Confirm)));
            Next(platform, w, DoConfirm(p.b, raw, now, NoCrash))
            == Return(platform, w, p.b, r, NoCrash, Some(Activated(p.b, p.a, p.id, Responder)), Some(Confirm), p.id)
  {
    DeliveredIsRead(platform, p, Accept, raw, now);
    NextIsConfirm(platform, w, p.b, raw, now);
    ConfirmStepIs(platform, w, p.b, ArtifactOf(platform, p, Accept), now);
    ConfirmOutcome(platform, w, p, now);
  }

  lemma ConfirmCompletes(platform: Platform, w: World, p: Pairing, raw: Text, now: int)
    requires Arrives(platform, p, Accept, raw, now)
    requires Reached(platform, w, p, Entry(platform, p, Initiator, Accepted),
                 Some(Entry(platform, p, Responder, Challenged)), Accept)
    ensures var w' := Next(platform, w, DoConfirm(p.b, raw, now, NoCrash));
            && Reached(platform, w', p, Entry(platform, p, Initiator, Accepted),
                   Some(Entry(platform, p, Responder, Confirmed)), Confirm)
            && Trusts(platform, w'.machines[p.b].trust, p.a, p.identityA.key, p.policyB)
  {
    var m, entry := w.machines[p.b], Entry(platform, p, Responder, Confirmed);
    var r := Done(platform, m, p, true, Active, entry, Some(ArtifactOf(platform, p, Confirm)));
    var proof := Some(Activated(p.b, p.a, p.id, Responder));
    ConfirmIsRun(platform, w, p, raw, now);
    AdvancePins(platform, m.trust, p.a, p.identityA.key, p.policyB, Active);
    ReturnOfB(platform, w, p, r, proof, r.trust, Entry(platform, p, Initiator, Accepted),
        Some(Entry(platform, p, Responder, Challenged)), entry, Accept, Confirm);
    ReturnWrites(platform, w, p.b, r, proof, Some(Confirm), p.id);
  }

  /** Both have confirmed the same terms, and each trusts the other's true key. */
  ghost predicate Enrolled(platform: Platform, w: World, p: Pairing) {
    && p.a in w.machines && p.b in w.machines && p.id in w.machines[p.a].ledger && p.id in w.machines[p.b].ledger
    && w.machines[p.a].ledger[p.id] == LedgerEntry(Initiator, Confirmed, FullTerms(platform, p))
    && w.machines[p.b].ledger[p.id] == LedgerEntry(Responder, Confirmed, FullTerms(platform, p))
    && Trusts(platform, w.machines[p.a].trust, p.b, p.identityB.key, p.policyA)
    && Trusts(platform, w.machines[p.b].trust, p.a, p.identityA.key, p.policyB)
  }

  lemma FinalizeOutcome(platform: Platform, w: World, p: Pairing, now: int)
    requires Lawful(platform) && WellFormed(platform, p) && PoliciesHold(platform, p, now) && p.InTime(now)
    requires Reached(platform, w, p, Entry(platform, p, Initiator, Accepted),
                 Some(Entry(platform, p, Responder, Confirmed)), Confirm)
    ensures var r := Done(platform, w.machines[p.a], p, false, Active, Entry(platform, p, Initiator, Confirmed), None);
            FinalizeStage(CallOf(platform, w, p.a, now), w.machines[p.a].trust, w.machines[p.a].ledger,
                ArtifactOf(platform, p, Confirm)) == r
  {
    var m := w.machines[p.a];
    FinalizeStageCompletes(platform, CallOf(platform, w, p.a, now), p, m.trust, m.ledger);
  }

  lemma FinalizeIsRun(platform: Platform, w: World, p: Pairing, raw: Text, now: int)
    requires Arrives(platform, p, Confirm, raw, now)
    requires Reached(platform, w, p, Entry(platform, p, Initiator, Accepted),
                 Some(Entry(platform, p, Responder, Confirmed)), Confirm)
    ensures var r := Done(platform, w.machines[p.a], p, false, Active, Entry(platform, p, Initiator, Confirmed), None);
            Next(platform, w, DoFinalize(p.a, raw, now, NoCrash))
            == Return(platform, w, p.a, r, NoCrash, Some(Activated(p.a, p.b, p.id, Initiator)), None, p.id)
  {
    DeliveredIsRead(platform, p, Confirm, raw, now);
    NextIsFinalize(platform, w, p.a, raw, now);
    FinalizeStepIs(platform, w, p.a, ArtifactOf(platform, p, Confirm), now);
    FinalizeOutcome(platform, w, p, now);
  }

  lemma FinalizeCompletes(platform: Platform, w: World, p: Pairing, raw: Text, now: int)
    requires Arrives(platform, p, Confirm, raw, now)
    requires Reached(platform, w, p, Entry(platform, p, Initiator, Accepted),
                 Some(Entry(platform, p, Responder, Confirmed)), Confirm)
    requires Trusts(platform, w.machines[p.b].trust, p.a, p.identityA.key, p.policyB)
    ensures Enrolled(platform, Next(platform, w, DoFinalize(p.a, raw, now, NoCrash)), p)
  {
    var m, entry := w.machines[p.a], Entry(platform, p, Initiator, Confirmed);
    var r := Done(platform, m, p, false, Active, entry, None);
    FinalizeIsRun(platform, w, p, raw, now);
    AdvancePins(platform, m.trust, p.b, p.identityB.key, p.policyA, Active);
    LastReturn(platform, w, p, r, Some(Activated(p.a, p.b, p.id, Initiator)), r.trust);
  }

  lemma LastReturn(platform: Platform, w: World, p: Pairing, r: StageResult, proof: Option<Event>, trust: Trust)
    requires p.a != p.b && Reached(platform, w, p, Entry(platform, p, Initiator, Accepted),
                               Some(Entry(platform, p, Responder, Confirmed)), Confirm)
    requires Trusts(platform, w.machines[p.b].trust, p.a, p.identityA.key, p.policyB)
    requires r == Completed(trust, w.machines[p.a].ledger[p.id := Entry(platform, p, Initiator, Confirmed)], None)
    requires Trusts(platform, trust, p.b, p.identityB.key, p.policyA)
    ensures Enrolled(platform, Return(platform, w, p.a, r, NoCrash, proof, None, p.id), p)
  {
    ReturnWrites(platform, w, p.a, r, proof, None, p.id);
  }

  // ---------------------------------------------------------------- enrollment completes

  /** The texts that are carried from one machine to the other, and when each is taken. */
  datatype Courier = Courier(offer: Text, challengedAt: int, challenge: Text, acceptedAt: int, accept: Text,
    confirmedAt: int, confirm: Text, finalizedAt: int)

  ghost predicate Carried(platform: Platform, p: Pairing, k: Courier) {
    && Arrives(platform, p, Offer, k.offer, k.challengedAt)
       && Arrives(platform, p, Challenge, k.challenge, k.acceptedAt)
    && Arrives(platform, p, Accept, k.accept, k.confirmedAt) && Arrives(platform, p, Confirm, k.confirm, k.finalizedAt)
  }

  function EnrollmentSteps(p: Pairing, k: Courier): seq<Step> {
    [ DoOffer(p.a, p.b, p.policyA, p.ttl, p.nonceA, p.id, p.start, NoCrash),
      DoChallenge(p.b, k.offer, p.policyB, p.nonceB, k.challengedAt, NoCrash),
      DoAccept(p.a, k.challenge, k.acceptedAt, NoCrash),
      DoConfirm(p.b, k.accept, k.confirmedAt, NoCrash),
      DoFinalize(p.a, k.confirm, k.finalizedAt, NoCrash)]
  }

  lemma RunNext(platform: Platform, w: World, steps: seq<Step>, step: Step, all: seq<Step>)
    requires all == steps + [step]
    ensures Run(platform, w, all) == Next(platform, Run(platform, w, steps), step)
  {
    assert all[..|all| - 1] == steps;
  }

  lemma RunOfThree(platform: Platform, w: World, a: Step, b: Step, c: Step)
    ensures Run(platform, w, [a, b, c]) == Next(platform, Next(platform, Next(platform, w, a), b), c)
  {
    RunNext(platform, w, [], a, [a]);
    RunNext(platform, w, [a], b, [a, b]);
    RunNext(platform, w, [a, b], c, [a, b, c]);
  }

  lemma RunOfFive(platform: Platform, w: World, a: Step, b: Step, c: Step, d: Step, e: Step)
    ensures Run(platform, w, [a, b, c, d, e])
              == Next(platform, Next(platform, Next(platform, Next(platform, Next(platform, w, a), b), c), d), e)
  {
    RunOfThree(platform, w, a, b, c);
    RunNext(platform, w, [a, b, c], d, [a, b, c, d]);
    RunNext(platform, w, [a, b, c, d], e, [a, b, c, d, e]);
  }

  lemma StagesComplete(platform: Platform, p: Pairing, k: Courier, w: World, w1: World, w2: World, w3: World, w4: World,
      w5: World)
    requires MayEnroll(platform, w, p) && PoliciesHold(platform, p, p.start) && Carried(platform, p, k)
    requires w1 == Next(platform, w, DoOffer(p.a, p.b, p.policyA, p.ttl, p.nonceA, p.id, p.start, NoCrash))
    requires w2 == Next(platform, w1, DoChallenge(p.b, k.offer, p.policyB, p.nonceB, k.challengedAt, NoCrash))
    requires w3 == Next(platform, w2, DoAccept(p.a, k.challenge, k.acceptedAt, NoCrash))
    requires w4 == Next(platform, w3, DoConfirm(p.b, k.accept, k.confirmedAt, NoCrash))
    requires w5 == Next(platform, w4, DoFinalize(p.a, k.confirm, k.finalizedAt, NoCrash))
    ensures Enrolled(platform, w5, p)
  {
    OfferCompletes(platform, w, p);
    ChallengeCompletes(platform, w1, p, k.offer, k.challengedAt);
    AcceptCompletes(platform, w2, p, k.challenge, k.acceptedAt);
    ConfirmCompletes(platform, w3, p, k.accept, k.confirmedAt);
    FinalizeCompletes(platform, w4, p, k.confirm, k.finalizedAt);
  }

  /**
   Enrollment completes. In whatever world two honest machines are that may still enroll: if each artifact
   arrives in any spelling, and is taken no more than thirty seconds before the offer was made and before
   the window closes, all five stages succeed, both ledgers are confirmed with the same terms and each
   machine holds an active record of the other's true key.
   */
  lemma EnrollmentCompletes(platform: Platform, w: World, p: Pairing, k: Courier)
    requires MayEnroll(platform, w, p) && PoliciesHold(platform, p, p.start) && Carried(platform, p, k)
    ensures Enrolled(platform, Run(platform, w, EnrollmentSteps(p, k)), p)
  {
    var s := EnrollmentSteps(p, k);
    RunOfFive(platform, w, s[0], s[1], s[2], s[3], s[4]);
    var w1 := Next(platform, w, s[0]);
    var w2 := Next(platform, w1, s[1]);
    var w3 := Next(platform, w2, s[2]);
    var w4 := Next(platform, w3, s[3]);
    StagesComplete(platform, p, k, w, w1, w2, w3, w4, Next(platform, w4, s[4]));
  }

  /** Fresh machines may enroll. */
  lemma FreshMayEnroll(platform: Platform, w: World, p: Pairing)
    requires Fresh(platform, w) && p.a in w.machines && p.b in w.machines
    requires w.machines[p.a].identity == p.identityA && w.machines[p.b].identity == p.identityB
    ensures MayEnroll(platform, w, p)
  {
  }

  // ---------------------------------------------------------------- outside the window

  predicate Takes(step: Step) {
    step.DoChallenge? || step.DoAccept? || step.DoConfirm? || step.DoFinalize?
  }

  function Taken(step: Step): Stage
    requires Takes(step)
  {
    match step
    case DoChallenge(_, _, _, _, _, _) => Offer
    case DoAccept(_, _, _, _) => Challenge
    case DoConfirm(_, _, _, _) => Accept
    case DoFinalize(_, _, _, _) => Confirm
  }

  /** A window of at most `longest` that was issued at most thirty seconds ahead of this clock and has not run out. */
  predicate Timely(platform: Platform, issuedAt: Text, expiresAt: Text, longest: int, now: int) {
    match (platform.parseTime(issuedAt), platform.parseTime(expiresAt))
    case (Some(issued), Some(expires)) =>
      issued - 30_000 <= now && now < expires && issued < expires <= issued + longest
    case _ => false
  }

  lemma TimelyStages(platform: Platform, w: World, me: Text, now: int, a: Artifact, policy: Value, nonce: Text,
      stage: Stage)
    requires me in w.machines && ValidArtifact(platform, stage, a, now)
    ensures var c, m := CallOf(platform, w, me, now), w.machines[me];
            && (!ChallengeStage(c, m.trust, m.ledger, a, policy, nonce).Refused?
                || !AcceptStage(c, m.trust, m.ledger, a).Refused? || !ConfirmStage(c, m.trust, m.ledger, a).Refused?
                || !FinalizeStage(c, m.trust, m.ledger, a).Refused?
                ==> Timely(platform, a.terms.issuedAt, a.terms.expiresAt, 3_600_000, now))
  {
  }

  lemma RefusedWritesNothing(platform: Platform, w: World, me: Text, crash: Crash, proof: Option<Event>,
      stage: Option<Stage>, id: Text)
    requires me in w.machines
    ensures Return(platform, w, me, Refused, crash, proof, stage, id) == w
  {
    assert w.machines[me := w.machines[me]] == w.machines;
  }

  /**
   Outside the window nothing is written: in any world, a stage that takes an artifact and changes anything is
   timely.
   */
  lemma OnlyTimelyStagesWrite(platform: Platform, w: World, step: Step)
    requires Takes(step) && Next(platform, w, step) != w
    ensures var read := ReadArtifact(platform, Taken(step), step.raw, step.now);
            read.Some? && Timely(platform, read.value.terms.issuedAt, read.value.terms.expiresAt, 3_600_000, step.now)
  {
    var read := ReadArtifact(platform, Taken(step), step.raw, step.now);
    if read.Some? {
      var proof := match step
        case DoConfirm(me, _, _, _) =>
          Some(Activated(me, read.value.terms.origin, read.value.terms.enrollmentId, Responder))
        case DoFinalize(me, _, _, _) =>
          Some(Activated(me, read.value.terms.destination, read.value.terms.enrollmentId, Initiator))
        case _ => None;
      var stage := match step
        case DoChallenge(_, _, _, _, _, _) => Some(Challenge)
        case DoAccept(_, _, _, _) => Some(Accept)
        case DoConfirm(_, _, _, _) => Some(Confirm)
        case _ => None;
      RefusedWritesNothing(platform, w, step.me, step.crash, proof, stage, read.value.terms.enrollmentId);
      TimelyStages(platform, w, step.me, step.now, read.value,
          if step.DoChallenge? then step.policy else Null, if step.DoChallenge? then step.nonce else [], Taken(step));
    }
  }

  /** And an offer is only made over a window of thirty seconds to an hour, five minutes unless asked otherwise. */
  lemma OnlyBoundedOffers(platform: Platform, w: World, me: Text, peer: Text, policy: Value, ttl: Option<int>,
      nonce: Text, id: Text, now: int, crash: Crash)
    requires me in w.machines
    requires Next(platform, w, DoOffer(me, peer, policy, ttl, nonce, id, now, crash)) != w
    ensures ttl.Some? ==> 30 <= ttl.value <= 3600
  {
    RefusedWritesNothing(platform, w, me, crash, None, Some(Offer), id);
  }
}
