/** Every step keeps the invariant of `FederationInvariant`, and nothing is ever taken back. */
module FederationSteps {
  import opened Options
  import opened Utf16
  import opened JsonGrammar
  import JsonTheorems
  import opened Transcripts
  import opened Artifacts
  import opened PeerTrust
  import opened Enrollment
  import opened RelayHandshake
  import opened Federation
  import opened FederationInvariant

  ghost predicate Keeps(platform: Platform, w: World, w': World) {
    Ok(platform, w') && WorldExtends(w, w')
  }

  // ---------------------------------------------------------------- verification means release

  /** If a signature by an honest machine's key verifies over `s`, that machine released `s`. */
  lemma VerifiedMeansStated(platform: Platform, w: World, peer: Text, key: Text, s: Statement, signature: Text)
    requires Injective(platform) && Ok(platform, w) && Signable(s)
    requires peer in w.machines && platform.AuthorityFor(key) == peer
    requires Signed(key, Transcript(s), signature) in w.signatures
    ensures StatementOk(w, peer, s) && (peer, s) in w.statements
  {
    assert MachineOk(platform, w, peer, w.machines[peer]);
    AuthorityNamesOneKey(platform, key, w.machines[peer].identity.key);
    assert SignatureOk(w, Signed(key, Transcript(s), signature));
    assert Stated(w, peer, Transcript(s));
    var t :| (peer, t) in w.statements && Transcript(t) == Transcript(s);
    assert StatementOk(w, peer, t);
    TranscriptInjective(s, t);
  }

  // ---------------------------------------------------------------- durable writes

  ghost predicate WriteOk(platform: Platform, w: World, me: Text, m: Machine)
    requires me in w.machines
  {
    MachineExtends(w.machines[me], m) && MachineOk(platform, w, me, m)
  }

  lemma NoWrite(platform: Platform, w: World, me: Text)
    requires Ok(platform, w) && me in w.machines
    ensures WriteOk(platform, w, me, w.machines[me])
  {
    ExtendsItself(w);
    assert MachineExtends(w.machines[me], w.machines[me]);
  }

  ghost predicate TrustOk(platform: Platform, before: Trust, after: Trust) {
    StoreWf(platform, after) && PoliciesPrintable(after) && Extends(before, after)
  }

  lemma TrustWrite(platform: Platform, w: World, me: Text, trust: Trust)
    requires Ok(platform, w) && me in w.machines && TrustOk(platform, w.machines[me].trust, trust)
    ensures WriteOk(platform, w, me, w.machines[me].(trust := trust))
  {
    NoWrite(platform, w, me);
  }

  lemma EntryWrite(platform: Platform, w: World, me: Text, trust: Trust, id: Text, entry: LedgerEntry)
    requires Ok(platform, w) && me in w.machines && TrustOk(platform, w.machines[me].trust, trust)
    requires EntryOk(w, me, id, entry)
    requires id in w.machines[me].ledger ==> EntryExtends(w.machines[me].ledger[id], entry)
    ensures WriteOk(platform, w, me, w.machines[me].(trust := trust, ledger := w.machines[me].ledger[id := entry]))
  {
    NoWrite(platform, w, me);
  }

  /** The proof-gated advance leaves the authority pinned to the shown key, at least at `toState`. */
  lemma AdvanceIsOk(platform: Platform, trust: Trust, authority: Text, key: Text, policy: Value, toState: TrustState,
      now: int)
    requires StoreWf(platform, trust) && PoliciesPrintable(trust)
    requires AdvanceGuard(platform, trust, authority, key, policy, now) && (toState == Confirming || toState == Active)
    ensures var after := Advanced(platform, trust, authority, key, policy, toState);
            TrustOk(platform, trust, after) && authority in after && after[authority].key == key
                && Rank(toState) <= Rank(after[authority].state)
  {
    AdvanceKeeps(platform, trust, authority, key, policy, toState);
    AdvanceRaisesOne(platform, trust, authority, key, policy, toState);
  }

  // ---------------------------------------------------------------- a stage call as a whole

  /** An entry that a stage still finds in front of it has not been returned by that stage. */
  lemma NotReturned(platform: Platform, w: World, me: Text, stage: Option<Stage>, id: Text)
    requires Ok(platform, w) && me in w.machines
    requires id in w.machines[me].ledger ==> !Past(w.machines[me].ledger[id], stage)
    ensures Returned(me, stage, id) !in w.log
  {
    forall i | 0 <= i < |w.log|
      ensures w.log[i] != Returned(me, stage, id)
    {
      assert EventOk(w, w.log[..i], w.log[i]);
    }
  }

  /** What every stage result is shown to be: `entry` is the one ledger entry it writes. */
  ghost predicate Sound(platform: Platform, w: World, m: Machine, me: Text, r: StageResult, stage: Option<Stage>,
      id: Text, entry: LedgerEntry) {
    && (!r.Refused? ==> TrustOk(platform, m.trust, r.trust))
    && (r.Completed? ==>
          && r.ledger == m.ledger[id := entry] && Past(entry, stage) && EntryOk(w, me, id, entry)
          && (id in m.ledger ==> EntryExtends(m.ledger[id], entry) && !Past(m.ledger[id], stage))
          && (r.artifact.Some? ==>
             stage.Some? && r.artifact.value.terms == entry.terms && Signable(Enrollment(stage.value, entry.terms))))
  }

  lemma StageWrites(platform: Platform, w: World, me: Text, r: StageResult, crash: Crash, stage: Option<Stage>,
      id: Text, entry: LedgerEntry)
    requires Ok(platform, w) && me in w.machines && Sound(platform, w, w.machines[me], me, r, stage, id, entry)
    ensures Keeps(platform, w, Wrote(w, me, r, crash))
  {
    NoWrite(platform, w, me);
    if !r.Refused? { TrustWrite(platform, w, me, r.trust); }
    if r.Completed? { EntryWrite(platform, w, me, r.trust, id, entry); }
    WriteKeeps(platform, w, me, Durable(w.machines[me], r, crash));
  }

  /** The proof event, if the stage leaves one, is true of what it wrote. */
  lemma ProofKeeps(platform: Platform, w: World, w': World, proof: Option<Event>)
    requires Keeps(platform, w, w')
    requires proof.Some? ==> !proof.value.Returned? && EventOk(w', w'.log, proof.value)
    ensures Keeps(platform, w, LogProof(w', proof))
  {
    if proof.Some? {
      LogKeeps(platform, w', proof.value);
      WorldExtendsTransitive(w, w', Log(w', proof.value));
    }
  }

  /** An entry in this position vouches for the artifact that is released with it. */
  lemma EntryVouches(w: World, me: Text, stage: Stage, id: Text, entry: LedgerEntry)
    requires me in w.machines && id in w.machines[me].ledger && w.machines[me].ledger[id] == entry
    requires EntryShape(me, id, entry) && Past(entry, Some(stage)) && Signable(Enrollment(stage, entry.terms))
    requires stage == Confirm ==> Activated(me, entry.terms.origin, id, Responder) in w.log
    ensures StatementOk(w, me, Enrollment(stage, entry.terms))
  {
  }

  lemma ReleaseArtifact(platform: Platform, w: World, w': World, me: Text, stage: Option<Stage>, id: Text,
      artifact: Option<Artifact>)
    requires Keeps(platform, w, w') && me in w'.machines
    requires stage.Some? && artifact.Some? ==> StatementOk(w', me, Enrollment(stage.value, artifact.value.terms))
    ensures Keeps(platform, w, Emit(platform, w', me, stage, artifact))
  {
    if stage.Some? && artifact.Some? {
      ReleaseKeeps(platform, w', me, Enrollment(stage.value, artifact.value.terms));
      WorldExtendsTransitive(w, w', Release(platform, w', me, Enrollment(stage.value, artifact.value.terms)));
    }
  }

  lemma WriteAndProve(platform: Platform, w: World, me: Text, r: StageResult, crash: Crash, proof: Option<Event>,
      stage: Option<Stage>, id: Text, entry: LedgerEntry)
    requires Ok(platform, w) && me in w.machines && Sound(platform, w, w.machines[me], me, r, stage, id, entry)
    requires proof.Some? && !r.Refused? ==>
               proof.value.Activated? && EventOk(Wrote(w, me, r, crash), w.log, proof.value)
    ensures Keeps(platform, w, LogProof(Wrote(w, me, r, crash), if r.Refused? then None else proof))
  {
    StageWrites(platform, w, me, r, crash, stage, id, entry);
    ProofKeeps(platform, w, Wrote(w, me, r, crash), if r.Refused? then None else proof);
  }

  lemma EntryIsWritten(platform: Platform, w: World, me: Text, r: StageResult, proof: Option<Event>,
      stage: Option<Stage>, id: Text, entry: LedgerEntry)
    requires Ok(platform, w) && me in w.machines && r.Completed?
    requires Sound(platform, w, w.machines[me], me, r, stage, id, entry)
    requires proof.Some? ==> proof.value.Activated?
    ensures var w' := LogProof(Wrote(w, me, r, NoCrash), proof);
            && me in w'.machines && id in w'.machines[me].ledger && w'.machines[me].ledger[id] == entry
               && Returned(me, stage, id) !in w'.log
            && (proof.Some? ==> proof.value in w'.log)
  {
    NotReturned(platform, w, me, stage, id);
  }

  lemma ReleaseAndReturn(platform: Platform, w: World, w': World, me: Text, stage: Option<Stage>, id: Text,
      entry: LedgerEntry, artifact: Option<Artifact>)
    requires Keeps(platform, w, w') && me in w'.machines && id in w'.machines[me].ledger
    requires w'.machines[me].ledger[id] == entry
    requires EntryShape(me, id, entry) && Past(entry, stage) && Returned(me, stage, id) !in w'.log
    requires artifact.Some? ==>
               stage.Some? && artifact.value.terms == entry.terms && Signable(Enrollment(stage.value, entry.terms))
    requires stage == Some(Confirm) ==> Activated(me, entry.terms.origin, id, Responder) in w'.log
    ensures Keeps(platform, w, Log(Emit(platform, w', me, stage, artifact),
                                   Returned(me, stage, id)))
  {
    if artifact.Some? {
      EntryVouches(w', me, stage.value, id, entry);
    }
    ReleaseArtifact(platform, w, w', me, stage, id, artifact);
    var w'' := Emit(platform, w', me, stage, artifact);
    LogKeeps(platform, w'', Returned(me, stage, id));
    WorldExtendsTransitive(w, w'', Log(w'', Returned(me, stage, id)));
  }

  lemma ReturnKeeps(platform: Platform, w: World, me: Text, r: StageResult, crash: Crash, proof: Option<Event>,
      stage: Option<Stage>, id: Text, entry: LedgerEntry)
    requires Ok(platform, w) && me in w.machines && Sound(platform, w, w.machines[me], me, r, stage, id, entry)
    requires proof.Some? && !r.Refused? ==>
               proof.value.Activated? && EventOk(Wrote(w, me, r, crash), w.log, proof.value)
    requires stage == Some(Confirm) && r.Completed? ==> proof == Some(Activated(me, entry.terms.origin, id, Responder))
    ensures Keeps(platform, w, Return(platform, w, me, r, crash, proof, stage, id))
  {
    WriteAndProve(platform, w, me, r, crash, proof, stage, id, entry);
    if r.Completed? && crash == NoCrash {
      EntryIsWritten(platform, w, me, r, proof, stage, id, entry);
      ReleaseAndReturn(platform, w, LogProof(Wrote(w, me, r, crash), proof), me, stage, id, entry, r.artifact);
    }
  }

  // ---------------------------------------------------------------- offer

  lemma OfferSound(platform: Platform, w: World, me: Text, c: Call, peer: Text, policy: Value, ttl: Option<int>,
      nonce: Text, id: Text, terms: Terms)
    requires Ok(platform, w) && me in w.machines && c == CallOf(platform, w, me, c.now)
    requires BoundedTtl(ttl).Some? ==> terms == OfferTerms(c, peer, policy, BoundedTtl(ttl).value, nonce, id)
    ensures Sound(platform, w, w.machines[me], me,
              OfferStage(c, w.machines[me].trust, w.machines[me].ledger, peer, policy, ttl, nonce, id),
                  Some(Offer), id, LedgerEntry(Initiator, Offered, terms))
  {
    NoWrite(platform, w, me);
    var r := OfferStage(c, w.machines[me].trust, w.machines[me].ledger, peer, policy, ttl, nonce, id);
    if r.Completed? {
      ValidArtifactIsSignable(platform, Offer, r.artifact.value, c.now);
    }
  }

  lemma OfferKeeps(platform: Platform, w: World, me: Text, peer: Text, policy: Value, ttl: Option<int>, nonce: Text,
      id: Text, now: int, crash: Crash)
    requires Ok(platform, w) && me in w.machines
    ensures Keeps(platform, w, OfferStep(platform, w, me, peer, policy, ttl, nonce, id, now, crash))
  {
    var c := CallOf(platform, w, me, now);
    var terms := OfferTerms(c, peer, policy, if BoundedTtl(ttl).Some? then BoundedTtl(ttl).value else 0, nonce, id);
    OfferSound(platform, w, me, c, peer, policy, ttl, nonce, id, terms);
    ReturnKeeps(platform, w, me,
        OfferStage(c, w.machines[me].trust, w.machines[me].ledger, peer, policy, ttl, nonce, id), crash,
                None, Some(Offer), id, LedgerEntry(Initiator, Offered, terms));
  }

  // ---------------------------------------------------------------- challenge

  /** The offer is its honest origin's own, so the entry that answers it agrees with the origin's. */
  lemma ChallengeEntry(platform: Platform, w: World, me: Text, c: Call, offer: Artifact, policy: Value, nonce: Text)
    requires Injective(platform) && Ok(platform, w) && me in w.machines && c == CallOf(platform, w, me, c.now)
    requires ValidArtifact(platform, Offer, offer, c.now) && ChallengeChecks(c, w.machines[me].ledger, offer, policy)
    requires Signable(Enrollment(Challenge, ChallengeTerms(c, offer.terms, policy, nonce)))
    ensures EntryOk(w, me, offer.terms.enrollmentId,
              LedgerEntry(Responder, Challenged, ChallengeTerms(c, offer.terms, policy, nonce)))
  {
    var t := offer.terms;
    if t.origin in w.machines {
      ValidArtifactIsSignable(platform, Offer, offer, c.now);
      VerifiedMeansStated(platform, w, t.origin, platform.derOf(t.originKey).value, Enrollment(Offer, t),
          offer.signature);
    }
  }

  lemma ChallengeTrust(platform: Platform, w: World, me: Text, c: Call, offer: Artifact, policy: Value, nonce: Text)
    requires Ok(platform, w) && me in w.machines && c == CallOf(platform, w, me, c.now)
    ensures var r := ChallengeStage(c, w.machines[me].trust, w.machines[me].ledger, offer, policy, nonce);
            r.Refused? || TrustOk(platform, w.machines[me].trust, r.trust)
  {
    var trust := w.machines[me].trust;
    var der := platform.derOf(offer.terms.originKey);
    assert MachineOk(platform, w, me, w.machines[me]);
    if der.Some? && AdvanceGuard(platform, trust, offer.terms.origin, der.value, policy, c.now) {
      AdvanceIsOk(platform, trust, offer.terms.origin, der.value, policy, Confirming, c.now);
    }
  }

  lemma ChallengeSound(platform: Platform, w: World, me: Text, c: Call, offer: Artifact, policy: Value, nonce: Text)
    requires Injective(platform) && Ok(platform, w) && me in w.machines && c == CallOf(platform, w, me, c.now)
    requires ValidArtifact(platform, Offer, offer, c.now)
    ensures Sound(platform, w, w.machines[me], me,
              ChallengeStage(c, w.machines[me].trust, w.machines[me].ledger, offer, policy, nonce),
                  Some(Challenge), offer.terms.enrollmentId,
                      LedgerEntry(Responder, Challenged, ChallengeTerms(c, offer.terms, policy, nonce)))
  {
    ChallengeTrust(platform, w, me, c, offer, policy, nonce);
    var r := ChallengeStage(c, w.machines[me].trust, w.machines[me].ledger, offer, policy, nonce);
    if r.Completed? {
      ValidArtifactIsSignable(platform, Challenge, r.artifact.value, c.now);
      ChallengeEntry(platform, w, me, c, offer, policy, nonce);
    }
  }

  lemma ChallengeKeeps(platform: Platform, w: World, me: Text, read: Option<Artifact>, policy: Value, nonce: Text,
      now: int, crash: Crash)
    requires Injective(platform) && Ok(platform, w) && me in w.machines
    requires read.Some? ==> ValidArtifact(platform, Offer, read.value, now)
    ensures Keeps(platform, w, ChallengeStep(platform, w, me, read, policy, nonce, now, crash))
  {
    ExtendsItself(w);
    if read.Some? {
      var offer := read.value;
      var c := CallOf(platform, w, me, now);
      ChallengeSound(platform, w, me, c, offer, policy, nonce);
      ReturnKeeps(platform, w, me,
          ChallengeStage(c, w.machines[me].trust, w.machines[me].ledger, offer, policy, nonce), crash,
                  None, Some(Challenge), offer.terms.enrollmentId,
                      LedgerEntry(Responder, Challenged, ChallengeTerms(c, offer.terms, policy, nonce)));
    }
  }

  // ---------------------------------------------------------------- echoes

  /** Fields compared one by one, policies by their JSON, leave no room for a different origin half. */
  lemma EchoOriginIsEqual(t: Terms, l: Terms)
    requires t.version == l.version && t.enrollmentId == l.enrollmentId && EchoesOrigin(t, l)
    requires JsonTheorems.Printable(t.originPolicy) && JsonTheorems.Printable(l.originPolicy)
    ensures OriginHalf(t) == OriginHalf(l)
  {
    JsonTheorems.PrintInjective(t.originPolicy, l.originPolicy);
  }

  lemma EchoFullIsEqual(t: Terms, l: Terms)
    requires t.version == l.version && t.enrollmentId == l.enrollmentId && EchoesFull(t, l)
    requires HasDestination(t) && HasDestination(l) && t.Printable() && l.Printable()
    ensures t == l
  {
    EchoOriginIsEqual(t, l);
    JsonTheorems.PrintInjective(t.destinationPolicy.value, l.destinationPolicy.value);
  }

  // ---------------------------------------------------------------- accept

  lemma AcceptTrust(platform: Platform, w: World, me: Text, c: Call, challenge: Artifact)
    requires Ok(platform, w) && me in w.machines && c == CallOf(platform, w, me, c.now)
    ensures var r := AcceptStage(c, w.machines[me].trust, w.machines[me].ledger, challenge);
            r.Refused? || TrustOk(platform, w.machines[me].trust, r.trust)
  {
    var m := w.machines[me];
    var t := challenge.terms;
    assert MachineOk(platform, w, me, m);
    if AcceptChecks(c, m.ledger, challenge) {
      var der := platform.derOf(t.destinationKey.value).value;
      var policy := m.ledger[t.enrollmentId].terms.originPolicy;
      if AdvanceGuard(platform, m.trust, t.destination, der, policy, c.now) {
        AdvanceIsOk(platform, m.trust, t.destination, der, policy, Confirming, c.now);
      }
    }
  }

  /** The challenge repeats this machine's offer, and an honest destination holds exactly these terms. */
  lemma AcceptEntry(platform: Platform, w: World, me: Text, c: Call, challenge: Artifact)
    requires Injective(platform) && Ok(platform, w) && me in w.machines && c == CallOf(platform, w, me, c.now)
    requires ValidArtifact(platform, Challenge, challenge, c.now) && AcceptChecks(c, w.machines[me].ledger, challenge)
    ensures var t := challenge.terms;
            && OriginHalf(t) == OriginHalf(w.machines[me].ledger[t.enrollmentId].terms)
            && EntryOk(w, me, t.enrollmentId, LedgerEntry(Initiator, Accepted, t)) && Signable(Enrollment(Accept, t))
  {
    var t := challenge.terms;
    var entry := w.machines[me].ledger[t.enrollmentId];
    assert MachineOk(platform, w, me, w.machines[me]);
    assert EntryOk(w, me, t.enrollmentId, entry);
    ValidArtifactIsSignable(platform, Challenge, challenge, c.now);
    EchoOriginIsEqual(t, entry.terms);
    if t.destination in w.machines {
      VerifiedMeansStated(platform, w, t.destination, platform.derOf(t.destinationKey.value).value,
          Enrollment(Challenge, t), challenge.signature);
    }
  }

  /** Where the stage starts from and what it writes, if it completes. */
  lemma AcceptShape(c: Call, trust: Trust, ledger: Ledger, challenge: Artifact)
    ensures var r := AcceptStage(c, trust, ledger, challenge);
            var id := challenge.terms.enrollmentId;
            r.Refused? || (AcceptChecks(c, ledger, challenge)
                           && (r.Completed? ==>
                              r.ledger == ledger[id := LedgerEntry(Initiator, Accepted,
                              WithDestination(ledger[id].terms, challenge.terms))] && r.artifact.Some?
                              && r.artifact.value.terms == challenge.terms))
  {
  }

  lemma AcceptResult(platform: Platform, w: World, me: Text, m: Machine, r: StageResult, t: Terms)
    requires r.Refused? || TrustOk(platform, m.trust, r.trust)
    requires var id := t.enrollmentId;
             r.Completed? ==>
               && id in m.ledger && m.ledger[id].role == Initiator && m.ledger[id].stage == Offered
               && OriginHalf(t) == OriginHalf(m.ledger[id].terms)
                  && r.ledger == m.ledger[id := LedgerEntry(Initiator, Accepted, t)]
               && EntryOk(w, me, id, LedgerEntry(Initiator, Accepted, t)) && r.artifact.Some?
                  && r.artifact.value.terms == t && Signable(Enrollment(Accept, t))
    ensures Sound(platform, w, m, me, r, Some(Accept), t.enrollmentId, LedgerEntry(Initiator, Accepted, t))
  {
  }

  lemma AcceptSound(platform: Platform, w: World, me: Text, c: Call, challenge: Artifact)
    requires Injective(platform) && Ok(platform, w) && me in w.machines && c == CallOf(platform, w, me, c.now)
    requires ValidArtifact(platform, Challenge, challenge, c.now)
    ensures Sound(platform, w, w.machines[me], me,
              AcceptStage(c, w.machines[me].trust, w.machines[me].ledger, challenge),
                  Some(Accept), challenge.terms.enrollmentId, LedgerEntry(Initiator, Accepted, challenge.terms))
  {
    var m := w.machines[me];
    AcceptTrust(platform, w, me, c, challenge);
    AcceptShape(c, m.trust, m.ledger, challenge);
    if AcceptChecks(c, m.ledger, challenge) {
      AcceptEntry(platform, w, me, c, challenge);
    }
    AcceptResult(platform, w, me, m, AcceptStage(c, m.trust, m.ledger, challenge), challenge.terms);
  }

  lemma AcceptKeeps(platform: Platform, w: World, me: Text, read: Option<Artifact>, now: int, crash: Crash)
    requires Injective(platform) && Ok(platform, w) && me in w.machines
    requires read.Some? ==> ValidArtifact(platform, Challenge, read.value, now)
    ensures Keeps(platform, w, AcceptStep(platform, w, me, read, now, crash))
  {
    ExtendsItself(w);
    if read.Some? {
      var challenge := read.value;
      var c := CallOf(platform, w, me, now);
      AcceptSound(platform, w, me, c, challenge);
      ReturnKeeps(platform, w, me, AcceptStage(c, w.machines[me].trust, w.machines[me].ledger, challenge), crash,
                  None, Some(Accept), challenge.terms.enrollmentId, LedgerEntry(Initiator, Accepted, challenge.terms));
    }
  }

  // ---------------------------------------------------------------- the proof behind an activation

  /** `entry` keeps the terms it found, so the activation is true before and after the ledger write. */
  lemma ActivationProof(platform: Platform, w: World, me: Text, r: StageResult, crash: Crash, stage: Option<Stage>,
      id: Text, entry: LedgerEntry, peer: Text)
    requires me in w.machines && !r.Refused? && Sound(platform, w, w.machines[me], me, r, stage, id, entry)
    requires WorldExtends(w, Wrote(w, me, r, crash))
    requires id in w.machines[me].ledger && w.machines[me].ledger[id].(stage := entry.stage) == entry
    requires w.machines[me].ledger[id].stage != Offered && entry.stage != Offered
    requires peer == (if entry.role == Responder then entry.terms.origin else entry.terms.destination)
    requires peer in r.trust && Rank(r.trust[peer].state) >= Rank(Active)
    requires peer in w.machines ==>
      if entry.role == Responder then Holds(w, peer, id, Initiator, 1, entry.terms)
      else Holds(w, peer, id, Responder, 2, entry.terms) && Activated(peer, me, id, Responder) in w.log
    ensures EventOk(Wrote(w, me, r, crash), w.log, Activated(me, peer, id, entry.role))
  {
    if peer in w.machines {
      if entry.role == Responder {
        HoldsStable(w, Wrote(w, me, r, crash), peer, id, Initiator, 1, entry.terms);
      } else {
        HoldsStable(w, Wrote(w, me, r, crash), peer, id, Responder, 2, entry.terms);
      }
    }
  }

  // ---------------------------------------------------------------- confirm

  lemma ConfirmTrust(platform: Platform, w: World, me: Text, c: Call, accept: Artifact)
    requires Ok(platform, w) && me in w.machines && c == CallOf(platform, w, me, c.now)
    ensures var r := ConfirmStage(c, w.machines[me].trust, w.machines[me].ledger, accept);
            r.Refused? || (TrustOk(platform, w.machines[me].trust, r.trust)
                           && accept.terms.origin in r.trust
                              && Rank(r.trust[accept.terms.origin].state) >= Rank(Active))
  {
    var m := w.machines[me];
    var t := accept.terms;
    assert MachineOk(platform, w, me, m);
    if ConfirmChecks(c, m.ledger, accept) {
      var der := platform.derOf(t.originKey).value;
      var policy := ValueOrNull(m.ledger[t.enrollmentId].terms.destinationPolicy);
      if AdvanceGuard(platform, m.trust, t.origin, der, policy, c.now) {
        AdvanceIsOk(platform, m.trust, t.origin, der, policy, Active, c.now);
      }
    }
  }

  /** The accept repeats this machine's challenge, and an honest origin has accepted exactly these terms. */
  lemma ConfirmEntry(platform: Platform, w: World, me: Text, c: Call, accept: Artifact)
    requires Injective(platform) && Ok(platform, w) && me in w.machines && c == CallOf(platform, w, me, c.now)
    requires ValidArtifact(platform, Accept, accept, c.now) && ConfirmChecks(c, w.machines[me].ledger, accept)
    ensures var t := accept.terms;
            && w.machines[me].ledger[t.enrollmentId].terms == t
            && EntryOk(w, me, t.enrollmentId, LedgerEntry(Responder, Confirmed, t)) && Signable(Enrollment(Confirm, t))
            && (t.origin in w.machines ==> Holds(w, t.origin, t.enrollmentId, Initiator, 1, t))
  {
    var t := accept.terms;
    var entry := w.machines[me].ledger[t.enrollmentId];
    assert MachineOk(platform, w, me, w.machines[me]);
    assert EntryOk(w, me, t.enrollmentId, entry);
    ValidArtifactIsSignable(platform, Accept, accept, c.now);
    EchoFullIsEqual(t, entry.terms);
    if t.origin in w.machines {
      VerifiedMeansStated(platform, w, t.origin, platform.derOf(t.originKey).value, Enrollment(Accept, t),
          accept.signature);
    }
  }

  /** Where the stage starts from and what it writes, if it completes. */
  lemma ConfirmShape(c: Call, trust: Trust, ledger: Ledger, accept: Artifact)
    ensures var r := ConfirmStage(c, trust, ledger, accept);
            var id := accept.terms.enrollmentId;
            r.Refused? || (ConfirmChecks(c, ledger, accept)
                           && (r.Completed? ==>
                              r.ledger == ledger[id := ledger[id].(stage := Confirmed)] && r.artifact.Some?
                              && r.artifact.value.terms == accept.terms))
  {
  }

  lemma ConfirmResult(platform: Platform, w: World, me: Text, m: Machine, r: StageResult, t: Terms)
    requires r.Refused? || TrustOk(platform, m.trust, r.trust)
    requires var id := t.enrollmentId;
             r.Completed? ==>
               && id in m.ledger && m.ledger[id].role == Responder && m.ledger[id].stage == Challenged
               && m.ledger[id].terms == t && r.ledger == m.ledger[id := LedgerEntry(Responder, Confirmed, t)]
               && EntryOk(w, me, id, LedgerEntry(Responder, Confirmed, t)) && r.artifact.Some?
                  && r.artifact.value.terms == t && Signable(Enrollment(Confirm, t))
    ensures Sound(platform, w, m, me, r, Some(Confirm), t.enrollmentId, LedgerEntry(Responder, Confirmed, t))
  {
  }

  lemma ConfirmSound(platform: Platform, w: World, me: Text, c: Call, accept: Artifact)
    requires Injective(platform) && Ok(platform, w) && me in w.machines && c == CallOf(platform, w, me, c.now)
    requires ValidArtifact(platform, Accept, accept, c.now)
    ensures Sound(platform, w, w.machines[me], me, ConfirmStage(c, w.machines[me].trust, w.machines[me].ledger, accept),
                  Some(Confirm), accept.terms.enrollmentId, LedgerEntry(Responder, Confirmed, accept.terms))
  {
    var m := w.machines[me];
    ConfirmTrust(platform, w, me, c, accept);
    ConfirmShape(c, m.trust, m.ledger, accept);
    if ConfirmChecks(c, m.ledger, accept) {
      ConfirmEntry(platform, w, me, c, accept);
    }
    ConfirmResult(platform, w, me, m, ConfirmStage(c, m.trust, m.ledger, accept), accept.terms);
  }

  /** Wherever the confirming machine stopped, the proof it logged is true of what is on its disk. */
  lemma ConfirmProof(platform: Platform, w: World, me: Text, c: Call, accept: Artifact, crash: Crash)
    requires Injective(platform) && Ok(platform, w) && me in w.machines && c == CallOf(platform, w, me, c.now)
    requires ValidArtifact(platform, Accept, accept, c.now)
    ensures var r := ConfirmStage(c, w.machines[me].trust, w.machines[me].ledger, accept);
            r.Refused? || EventOk(Wrote(w, me, r, crash), w.log,
                Activated(me, accept.terms.origin, accept.terms.enrollmentId, Responder))
  {
    var r := ConfirmStage(c, w.machines[me].trust, w.machines[me].ledger, accept);
    if !r.Refused? {
      var t := accept.terms;
      ConfirmTrust(platform, w, me, c, accept);
      ConfirmEntry(platform, w, me, c, accept);
      ConfirmSound(platform, w, me, c, accept);
      StageWrites(platform, w, me, r, crash, Some(Confirm), t.enrollmentId, LedgerEntry(Responder, Confirmed, t));
      ActivationProof(platform, w, me, r, crash, Some(Confirm), t.enrollmentId, LedgerEntry(Responder, Confirmed, t),
          t.origin);
    }
  }

  lemma ConfirmKeeps(platform: Platform, w: World, me: Text, read: Option<Artifact>, now: int, crash: Crash)
    requires Injective(platform) && Ok(platform, w) && me in w.machines
    requires read.Some? ==> ValidArtifact(platform, Accept, read.value, now)
    ensures Keeps(platform, w, ConfirmStep(platform, w, me, read, now, crash))
  {
    ExtendsItself(w);
    if read.Some? {
      var accept := read.value;
      var c := CallOf(platform, w, me, now);
      ConfirmSound(platform, w, me, c, accept);
      ConfirmProof(platform, w, me, c, accept, crash);
      var r := ConfirmStage(c, w.machines[me].trust, w.machines[me].ledger, accept);
      ReturnKeeps(platform, w, me, r, crash,
                  Some(Activated(me, accept.terms.origin, accept.terms.enrollmentId, Responder)),
                  Some(Confirm), accept.terms.enrollmentId, LedgerEntry(Responder, Confirmed, accept.terms));
    }
  }

  // ---------------------------------------------------------------- finalize

  lemma FinalizeTrust(platform: Platform, w: World, me: Text, c: Call, confirm: Artifact)
    requires Ok(platform, w) && me in w.machines && c == CallOf(platform, w, me, c.now)
    ensures var r := FinalizeStage(c, w.machines[me].trust, w.machines[me].ledger, confirm);
            r.Refused? || (TrustOk(platform, w.machines[me].trust, r.trust)
                           && confirm.terms.destination in r.trust
                              && Rank(r.trust[confirm.terms.destination].state) >= Rank(Active))
  {
    var m := w.machines[me];
    var t := confirm.terms;
    assert MachineOk(platform, w, me, m);
    if FinalizeChecks(c, m.ledger, confirm) {
      var der := platform.derOf(t.destinationKey.value).value;
      var policy := m.ledger[t.enrollmentId].terms.originPolicy;
      if AdvanceGuard(platform, m.trust, t.destination, der, policy, c.now) {
        AdvanceIsOk(platform, m.trust, t.destination, der, policy, Active, c.now);
      }
    }
  }

  /** The confirm repeats this machine's accept, and an honest destination has confirmed exactly these terms. */
  lemma FinalizeEntry(platform: Platform, w: World, me: Text, c: Call, confirm: Artifact)
    requires Injective(platform) && Ok(platform, w) && me in w.machines && c == CallOf(platform, w, me, c.now)
    requires ValidArtifact(platform, Confirm, confirm, c.now) && FinalizeChecks(c, w.machines[me].ledger, confirm)
    ensures var t := confirm.terms;
            && w.machines[me].ledger[t.enrollmentId].terms == t
            && EntryOk(w, me, t.enrollmentId, LedgerEntry(Initiator, Confirmed, t))
            && (t.destination in w.machines ==>
                  Holds(w, t.destination, t.enrollmentId, Responder, 2, t)
                      && Activated(t.destination, me, t.enrollmentId, Responder) in w.log)
  {
    var t := confirm.terms;
    var entry := w.machines[me].ledger[t.enrollmentId];
    assert MachineOk(platform, w, me, w.machines[me]);
    assert EntryOk(w, me, t.enrollmentId, entry);
    ValidArtifactIsSignable(platform, Confirm, confirm, c.now);
    EchoFullIsEqual(t, entry.terms);
    if t.destination in w.machines { ConfirmWasSigned(platform, w, me, c, confirm); }
  }

  /** An honest destination that signed a confirm has confirmed and activated. */
  lemma ConfirmWasSigned(platform: Platform, w: World, me: Text, c: Call, confirm: Artifact)
    requires Injective(platform) && Ok(platform, w) && me in w.machines && c == CallOf(platform, w, me, c.now)
    requires ValidArtifact(platform, Confirm, confirm, c.now) && FinalizeChecks(c, w.machines[me].ledger, confirm)
    requires confirm.terms.destination in w.machines
    ensures var t := confirm.terms;
            && Holds(w, t.destination, t.enrollmentId, Responder, 2, t)
            && Activated(t.destination, t.origin, t.enrollmentId, Responder) in w.log
  {
    var t := confirm.terms;
    ValidArtifactIsSignable(platform, Confirm, confirm, c.now);
    VerifiedMeansStated(platform, w, t.destination, platform.derOf(t.destinationKey.value).value,
        Enrollment(Confirm, t), confirm.signature);
  }

  /** Where the stage starts from and what it writes, if it completes. */
  lemma FinalizeShape(c: Call, trust: Trust, ledger: Ledger, confirm: Artifact)
    ensures var r := FinalizeStage(c, trust, ledger, confirm);
            var id := confirm.terms.enrollmentId;
            r.Refused? || (FinalizeChecks(c, ledger, confirm)
                           && (r.Completed? ==>
                              r.ledger == ledger[id := ledger[id].(stage := Confirmed)] && r.artifact.None?))
  {
  }

  lemma FinalizeResult(platform: Platform, w: World, me: Text, m: Machine, r: StageResult, t: Terms)
    requires r.Refused? || TrustOk(platform, m.trust, r.trust)
    requires var id := t.enrollmentId;
             r.Completed? ==>
               && id in m.ledger && m.ledger[id].role == Initiator && m.ledger[id].stage == Accepted
               && m.ledger[id].terms == t && r.ledger == m.ledger[id := LedgerEntry(Initiator, Confirmed, t)]
               && EntryOk(w, me, id, LedgerEntry(Initiator, Confirmed, t)) && r.artifact.None?
    ensures Sound(platform, w, m, me, r, None, t.enrollmentId, LedgerEntry(Initiator, Confirmed, t))
  {
  }

  lemma FinalizeSound(platform: Platform, w: World, me: Text, c: Call, confirm: Artifact)
    requires Injective(platform) && Ok(platform, w) && me in w.machines && c == CallOf(platform, w, me, c.now)
    requires ValidArtifact(platform, Confirm, confirm, c.now)
    ensures Sound(platform, w, w.machines[me], me,
              FinalizeStage(c, w.machines[me].trust, w.machines[me].ledger, confirm),
                  None, confirm.terms.enrollmentId, LedgerEntry(Initiator, Confirmed, confirm.terms))
  {
    var m := w.machines[me];
    FinalizeTrust(platform, w, me, c, confirm);
    FinalizeShape(c, m.trust, m.ledger, confirm);
    if FinalizeChecks(c, m.ledger, confirm) {
      FinalizeEntry(platform, w, me, c, confirm);
    }
    FinalizeResult(platform, w, me, m, FinalizeStage(c, m.trust, m.ledger, confirm), confirm.terms);
  }

  lemma FinalizeProof(platform: Platform, w: World, me: Text, c: Call, confirm: Artifact, crash: Crash)
    requires Injective(platform) && Ok(platform, w) && me in w.machines && c == CallOf(platform, w, me, c.now)
    requires ValidArtifact(platform, Confirm, confirm, c.now)
    ensures var r := FinalizeStage(c, w.machines[me].trust, w.machines[me].ledger, confirm);
            r.Refused? || EventOk(Wrote(w, me, r, crash), w.log,
                Activated(me, confirm.terms.destination, confirm.terms.enrollmentId, Initiator))
  {
    var r := FinalizeStage(c, w.machines[me].trust, w.machines[me].ledger, confirm);
    if !r.Refused? {
      var t := confirm.terms;
      FinalizeTrust(platform, w, me, c, confirm);
      FinalizeEntry(platform, w, me, c, confirm);
      FinalizeSound(platform, w, me, c, confirm);
      StageWrites(platform, w, me, r, crash, None, t.enrollmentId, LedgerEntry(Initiator, Confirmed, t));
      ActivationProof(platform, w, me, r, crash, None, t.enrollmentId, LedgerEntry(Initiator, Confirmed, t),
          t.destination);
    }
  }

  lemma FinalizeKeeps(platform: Platform, w: World, me: Text, read: Option<Artifact>, now: int, crash: Crash)
    requires Injective(platform) && Ok(platform, w) && me in w.machines
    requires read.Some? ==> ValidArtifact(platform, Confirm, read.value, now)
    ensures Keeps(platform, w, FinalizeStep(platform, w, me, read, now, crash))
  {
    ExtendsItself(w);
    if read.Some? {
      var confirm := read.value;
      var c := CallOf(platform, w, me, now);
      FinalizeSound(platform, w, me, c, confirm);
      FinalizeProof(platform, w, me, c, confirm, crash);
      ReturnKeeps(platform, w, me, FinalizeStage(c, w.machines[me].trust, w.machines[me].ledger, confirm), crash,
                  Some(Activated(me, confirm.terms.destination, confirm.terms.enrollmentId, Initiator)),
                  None, confirm.terms.enrollmentId, LedgerEntry(Initiator, Confirmed, confirm.terms));
    }
  }

  // ---------------------------------------------------------------- trust by hand

  lemma SetTrustKeeps(platform: Platform, w: World, me: Text, trust: Trust)
    requires Ok(platform, w) && me in w.machines && TrustOk(platform, w.machines[me].trust, trust)
    ensures Keeps(platform, w, SetTrust(w, me, trust))
  {
    TrustWrite(platform, w, me, trust);
    WriteKeeps(platform, w, me, w.machines[me].(trust := trust));
  }

  lemma PrepareStepKeeps(platform: Platform, w: World, me: Text, authority: Text, key: Text, policy: Value, now: int)
    requires Ok(platform, w) && me in w.machines
    ensures Keeps(platform, w, PrepareStep(platform, w, me, authority, key, policy, now))
  {
    var trust := w.machines[me].trust;
    assert MachineOk(platform, w, me, w.machines[me]);
    ExtendsItself(w);
    if AdvanceGuard(platform, trust, authority, key, policy, now) {
      PrepareKeeps(platform, trust, authority, key, policy);
      SetTrustKeeps(platform, w, me, Prepared(platform, trust, authority, key, policy));
    }
  }

  lemma RevokeStepKeeps(platform: Platform, w: World, me: Text, authority: Text, reason: Text)
    requires Ok(platform, w) && me in w.machines
    ensures Keeps(platform, w, RevokeStep(w, me, authority, reason))
  {
    var trust := w.machines[me].trust;
    assert MachineOk(platform, w, me, w.machines[me]);
    ExtendsItself(w);
    if RevokeGuard(trust, authority, reason) {
      RevokeKeeps(platform, trust, authority, reason);
      SetTrustKeeps(platform, w, me, RevokedIn(trust, authority, reason));
    }
  }

  // ---------------------------------------------------------------- the relay handshake

  lemma DialStepKeeps(platform: Platform, w: World, me: Text, peer: Text, ttl: Option<int>, connectionId: Text,
      nonce: Text, now: int)
    requires Ok(platform, w) && me in w.machines
    ensures Keeps(platform, w, DialStep(platform, w, me, peer, ttl, connectionId, nonce, now))
  {
    assert MachineOk(platform, w, me, w.machines[me]);
    ExtendsItself(w);
    var dialed := Dial(CallOf(platform, w, me, now), w.machines[me].trust, peer, ttl, connectionId, nonce);
    if dialed.Some? {
      var t := dialed.value;
      DialKeeps(platform, w, me, t);
      var w' := w.(dials := w.dials + {(me, t)});
      ReleaseKeeps(platform, w', me, RelayInit(t));
      WorldExtendsTransitive(w, w', Release(platform, w', me, RelayInit(t)));
    }
  }

  /** What an answer says, and the record it is given under. */
  predicate AnswersWith(me: Text, trust: Trust, init: InitTerms, terms: AcceptTerms, record: TrustRecord) {
    && terms.init == init && init.responder == me && terms.responderPolicy == record.policy
    && ActiveRecord(trust, init.initiator) == Some(record) && TrustMatches(record, init.initiatorFingerprint)
  }

  lemma AnswerShape(c: Call, trust: Trust, frame: InitFrame, nonce: Text)
    ensures match AnswerInit(c, trust, frame, nonce)
            case Reject(_) => true
            case Answer(terms, record) => AnswersWith(c.Self(), trust, frame.init, terms, record)
  {
  }

  lemma AnswerLogs(platform: Platform, w: World, me: Text, terms: AcceptTerms, record: TrustRecord)
    requires Ok(platform, w) && me in w.machines && AnswersWith(me, w.machines[me].trust, terms.init, terms, record)
    requires terms.init.initiator in w.machines ==> (terms.init.initiator, terms.init) in w.dials
    ensures EventOk(w, w.log, AcceptSigned(me, terms, record))
  {
    assert MachineOk(platform, w, me, w.machines[me]);
  }

  /** An answer is logged with the active record it was given under; an honest initiator did dial. */
  lemma AnswerIsSound(platform: Platform, w: World, me: Text, c: Call, frame: InitFrame, nonce: Text)
    requires Injective(platform) && Ok(platform, w) && me in w.machines && c == CallOf(platform, w, me, c.now)
    requires ValidInitTerms(platform, frame.init, c.now)
    ensures match AnswerInit(c, w.machines[me].trust, frame, nonce)
            case Reject(_) => true
            case Answer(terms, record) => EventOk(w, w.log, AcceptSigned(me, terms, record))
  {
    var answer := AnswerInit(c, w.machines[me].trust, frame, nonce);
    if answer.Answer? {
      assert c.Self() == me by { assert MachineOk(platform, w, me, w.machines[me]); }
      AnswerShape(c, w.machines[me].trust, frame, nonce);
      if frame.init.initiator in w.machines { InitWasDialed(platform, w, me, c, frame, nonce); }
      AnswerLogs(platform, w, me, answer.terms, answer.record);
    }
  }

  lemma AnswerIsSignable(platform: Platform, w: World, me: Text, c: Call, frame: InitFrame, nonce: Text)
    requires Ok(platform, w) && me in w.machines && c == CallOf(platform, w, me, c.now)
    requires ValidInitTerms(platform, frame.init, c.now)
    ensures match AnswerInit(c, w.machines[me].trust, frame, nonce)
            case Reject(_) => true
            case Answer(terms, _) => Signable(RelayAccept(terms))
  {
    assert MachineOk(platform, w, me, w.machines[me]);
  }

  /** An honest initiator whose signature is answered has dialed exactly so. */
  lemma InitWasDialed(platform: Platform, w: World, me: Text, c: Call, frame: InitFrame, nonce: Text)
    requires Injective(platform) && Ok(platform, w) && me in w.machines && c == CallOf(platform, w, me, c.now)
    requires ValidInitTerms(platform, frame.init, c.now) && frame.init.initiator in w.machines
    requires AnswerInit(c, w.machines[me].trust, frame, nonce).Answer?
    ensures (frame.init.initiator, frame.init) in w.dials
  {
    var t := frame.init;
    var key := platform.derOf(t.initiatorKey).value;
    VerifiedMeansStated(platform, w, t.initiator, key, RelayInit(t), frame.signature);
  }

  lemma AnswerKeeps(platform: Platform, w: World, me: Text, read: Option<InitFrame>, nonce: Text, now: int)
    requires Injective(platform) && Ok(platform, w) && me in w.machines
    requires read.Some? ==> ValidInitTerms(platform, read.value.init, now)
    ensures Keeps(platform, w, AnswerStep(platform, w, me, read, nonce, now))
  {
    ExtendsItself(w);
    if read.Some? {
      var frame := read.value;
      var c := CallOf(platform, w, me, now);
      AnswerIsSound(platform, w, me, c, frame, nonce);
      AnswerIsSignable(platform, w, me, c, frame, nonce);
      var answer := AnswerInit(c, w.machines[me].trust, frame, nonce);
      if answer.Answer? {
        SignAnswerKeeps(platform, w, me, answer.terms, answer.record);
      }
    }
  }

  lemma SignAnswerKeeps(platform: Platform, w: World, me: Text, terms: AcceptTerms, record: TrustRecord)
    requires Ok(platform, w) && me in w.machines && EventOk(w, w.log, AcceptSigned(me, terms, record))
    requires Signable(RelayAccept(terms))
    ensures Keeps(platform, w, Release(platform, Log(w, AcceptSigned(me, terms, record)), me, RelayAccept(terms)))
  {
    var w' := Log(w, AcceptSigned(me, terms, record));
    LogKeeps(platform, w, AcceptSigned(me, terms, record));
    assert AcceptSigned(me, terms, record) in w'.log;
    ReleaseKeeps(platform, w', me, RelayAccept(terms));
    WorldExtendsTransitive(w, w', Release(platform, w', me, RelayAccept(terms)));
  }

  lemma EchoInitIsEqual(t: InitTerms, p: InitTerms)
    requires EchoesInit(t, p) && t.connectionId == p.connectionId && t.responder == p.responder
    requires JsonTheorems.Printable(t.initiatorPolicy) && JsonTheorems.Printable(p.initiatorPolicy)
    ensures t == p
  {
    JsonTheorems.PrintInjective(t.initiatorPolicy, p.initiatorPolicy);
  }

  /** A verified accept of an honest responder is one that it logged. */
  lemma AcceptWasSigned(platform: Platform, w: World, c: Call, t: AcceptTerms, signature: Text)
    requires Injective(platform) && Ok(platform, w) && c.platform == platform && c.signatures == w.signatures
    requires Signable(RelayAccept(t)) && t.init.responder in w.machines
    requires PresentsKey(platform, t.responderKey, t.init.responder, t.responderFingerprint)
    requires c.Verifies(platform.derOf(t.responderKey).value, RelayAccept(t), signature)
    ensures SignedAccept(w, t.init.responder, t, w.log)
  {
    VerifiedMeansStated(platform, w, t.init.responder, platform.derOf(t.responderKey).value, RelayAccept(t), signature);
  }

  /** What passing every check of `RefuseAccept` means. */
  lemma NotRefused(c: Call, trust: Trust, pending: InitTerms, frame: AcceptFrame)
    requires RefuseAccept(c, trust, Some(pending), frame).None?
    ensures var t := frame.terms;
            && EchoesInit(t.init, pending) && t.init.connectionId == pending.connectionId
               && t.init.responder == pending.responder
            && PresentsKey(c.platform, t.responderKey, t.init.responder, t.responderFingerprint)
            && c.Verifies(c.platform.derOf(t.responderKey).value, RelayAccept(t), frame.signature)
            && t.init.responder in trust && trust[t.init.responder].state == Active
               && trust[t.init.responder].fingerprint == t.responderFingerprint
  {
  }

  /** An accept that passes every check repeats the dialed init, and an honest responder signed it. */
  lemma ConnectIsSound(platform: Platform, w: World, me: Text, c: Call, pending: InitTerms, frame: AcceptFrame)
    requires Injective(platform) && Ok(platform, w) && me in w.machines && c == CallOf(platform, w, me, c.now)
    requires ValidAcceptTerms(platform, frame.terms, c.now) && (me, pending) in w.dials
    requires RefuseAccept(c, w.machines[me].trust, Some(pending), frame).None?
    ensures EventOk(w, w.log, Connected(me, frame.terms)) && frame.terms.init == pending
  {
    NotRefused(c, w.machines[me].trust, pending, frame);
    assert DialOk(platform, w, me, pending);
    EchoInitIsEqual(frame.terms.init, pending);
    if frame.terms.init.responder in w.machines {
      AcceptWasSigned(platform, w, c, frame.terms, frame.signature);
    }
  }

  lemma ConnectKeeps(platform: Platform, w: World, me: Text, pending: InitTerms, read: Option<AcceptFrame>, now: int)
    requires Injective(platform) && Ok(platform, w) && me in w.machines
    requires read.Some? ==> ValidAcceptTerms(platform, read.value.terms, now)
    ensures Keeps(platform, w, ConnectStep(platform, w, me, pending, read, now))
  {
    ExtendsItself(w);
    if read.Some? {
      var frame := read.value;
      var c := CallOf(platform, w, me, now);
      if (me, pending) in w.dials && RefuseAccept(c, w.machines[me].trust, Some(pending), frame).None? {
        ConnectIsSound(platform, w, me, c, pending, frame);
        LogKeeps(platform, w, Connected(me, frame.terms));
      }
    }
  }

  lemma CapabilityKeeps(platform: Platform, w: World, me: Text, body: Value)
    requires Ok(platform, w) && me in w.machines
    ensures Keeps(platform, w, CapabilityStep(platform, w, me, body))
  {
    ExtendsItself(w);
    if JsonTheorems.Printable(body) {
      ReleaseKeeps(platform, w, me, TerminalCapability(body));
    }
  }

  // ---------------------------------------------------------------- any step, any run

  lemma EnrollmentNextKeeps(platform: Platform, w: World, step: Step)
    requires Injective(platform) && Ok(platform, w) && Enrolls(step) && step.me in w.machines
    ensures Keeps(platform, w, EnrollmentNext(platform, w, step))
  {
    match step
    case DoOffer(me, peer, policy, ttl, nonce, id, now, crash) =>
        OfferKeeps(platform, w, me, peer, policy, ttl, nonce, id, now, crash);
    case DoChallenge(me, raw, policy, nonce, now, crash) =>
        ChallengeKeeps(platform, w, me, ReadArtifact(platform, Offer, raw, now), policy, nonce, now, crash);
    case DoAccept(me, raw, now, crash) =>
        AcceptKeeps(platform, w, me, ReadArtifact(platform, Challenge, raw, now), now, crash);
    case DoConfirm(me, raw, now, crash) =>
        ConfirmKeeps(platform, w, me, ReadArtifact(platform, Accept, raw, now), now, crash);
    case DoFinalize(me, raw, now, crash) =>
        FinalizeKeeps(platform, w, me, ReadArtifact(platform, Confirm, raw, now), now, crash);
  }

  lemma HandshakeNextKeeps(platform: Platform, w: World, step: Step)
    requires Injective(platform) && Ok(platform, w) && Handshakes(step) && step.me in w.machines
    ensures Keeps(platform, w, HandshakeNext(platform, w, step))
  {
    match step
    case DoDial(me, peer, ttl, connectionId, nonce, now) =>
        DialStepKeeps(platform, w, me, peer, ttl, connectionId, nonce, now);
    case DoAnswer(me, raw, nonce, now) => AnswerKeeps(platform, w, me, ReadInit(platform, raw, now), nonce, now);
    case DoConnect(me, pending, raw, now) =>
        ConnectKeeps(platform, w, me, pending, ReadAccept(platform, raw, now), now);
  }

  /** Any step whatsoever keeps the world in order and takes nothing back. */
  lemma NextKeeps(platform: Platform, w: World, step: Step)
    requires Injective(platform) && Ok(platform, w)
    ensures Keeps(platform, w, Next(platform, w, step))
  {
    ExtendsItself(w);
    if step.Forge? {
      ForgeKeeps(platform, w, step.signed);
    } else if step.me in w.machines {
      if Enrolls(step) {
        EnrollmentNextKeeps(platform, w, step);
      } else if Handshakes(step) {
        HandshakeNextKeeps(platform, w, step);
      } else {
        match step
        case DoPrepare(me, authority, key, policy, now) =>
            PrepareStepKeeps(platform, w, me, authority, key, policy, now);
        case DoRevoke(me, authority, reason) => RevokeStepKeeps(platform, w, me, authority, reason);
        case DoCapability(me, body) => CapabilityKeeps(platform, w, me, body);
      }
    }
  }

  lemma FreshIsOk(platform: Platform, w: World)
    requires Fresh(platform, w)
    ensures Ok(platform, w)
  {
    forall s | s in w.signatures
      ensures SignatureOk(w, s)
    {
      assert !HonestKey(w, s.key);
    }
  }

  /** From fresh machines, whatever the adversary does, every reachable world is in order. */
  lemma {:induction false} RunKeeps(platform: Platform, w: World, steps: seq<Step>)
    requires Injective(platform) && Fresh(platform, w)
    ensures Ok(platform, Run(platform, w, steps))
  {
    if steps == [] {
      FreshIsOk(platform, w);
    } else {
      RunKeeps(platform, w, steps[..|steps| - 1]);
      NextKeeps(platform, Run(platform, w, steps[..|steps| - 1]), steps[|steps| - 1]);
    }
  }
}
