/**
 What enrollment and the relay handshake promise, in every run of honest machines under a network
 that replays, drops, reorders and alters what it likes.
 */
module FederationTheorems {
  import opened Options
  import opened Utf16
  import opened JsonGrammar
  import opened Transcripts
  import opened Artifacts
  import opened PeerTrust
  import opened Enrollment
  import opened RelayHandshake
  import opened Federation
  import opened FederationInvariant
  import opened FederationSteps

  /** In every later world each pin, trust rank and ledger entry is where it was or further on. */
  lemma {:induction false} NothingMovesBack(platform: Platform, w: World, steps: seq<Step>, k: nat)
    requires Injective(platform) && Fresh(platform, w) && k <= |steps|
    ensures WorldExtends(Run(platform, w, steps[..k]), Run(platform, w, steps))
    decreases |steps|
  {
    if k == |steps| {
      assert steps[..k] == steps;
      ExtendsItself(Run(platform, w, steps));
    } else {
      var init := steps[..|steps| - 1];
      assert init[..k] == steps[..k];
      NothingMovesBack(platform, w, init, k);
      RunKeeps(platform, w, init);
      NextKeeps(platform, Run(platform, w, init), steps[|steps| - 1]);
      WorldExtendsTransitive(Run(platform, w, steps[..k]), Run(platform, w, init), Run(platform, w, steps));
    }
  }

  /** The key that a proven record pins is the key of the machine it names. */
  lemma ProvenPinsTheKey(platform: Platform, w: World, a: Text, peer: Text)
    requires Injective(platform) && Ok(platform, w) && Proven(w, a, peer) && peer in w.machines
    ensures w.machines[a].trust[peer].key == w.machines[peer].identity.key
  {
    assert MachineOk(platform, w, a, w.machines[a]) && MachineOk(platform, w, peer, w.machines[peer]);
    AuthorityNamesOneKey(platform, w.machines[a].trust[peer].key, w.machines[peer].identity.key);
  }

  /** What an activation at the initiator says about both machines, read off the log. */
  lemma FinalizedTogether(platform: Platform, w: World, i: nat, a: Text, d: Text, e: Text)
    requires Ok(platform, w) && i < |w.log| && w.log[i] == Activated(a, d, e, Initiator) && d in w.machines
    ensures Activated(d, a, e, Responder) in w.log[..i] && Proven(w, a, d)
    ensures a in w.machines && e in w.machines[a].ledger && w.machines[a].ledger[e].role == Initiator
    ensures Holds(w, d, e, Responder, 2, w.machines[a].ledger[e].terms)
  {
    assert EventOk(w, w.log[..i], w.log[i]);
  }

  lemma ConfirmedTogether(platform: Platform, w: World, d: Text, a: Text, e: Text)
    requires Ok(platform, w) && Activated(d, a, e, Responder) in w.log
    ensures Proven(w, d, a) && e in w.machines[d].ledger && w.machines[d].ledger[e].role == Responder
    ensures a in w.machines ==> Holds(w, a, e, Initiator, 1, w.machines[d].ledger[e].terms)
  {
    var j :| 0 <= j < |w.log| && w.log[j] == Activated(d, a, e, Responder);
    assert EventOk(w, w.log[..j], w.log[j]);
  }

  /**
   Agreement for the initiator. When finalize raises `d` to active for enrollment `e`, the honest
   responder `d` had already raised the initiator to active for `e`; it has confirmed `e`; both
   ledgers hold the same keys, policies, nonces and window; and each pins the other's true key.
   */
  lemma FinalizeAgreement(platform: Platform, start: World, steps: seq<Step>, i: nat, a: Text, d: Text, e: Text)
    requires Injective(platform) && Fresh(platform, start)
    requires var w := Run(platform, start, steps);
               i < |w.log| && w.log[i] == Activated(a, d, e, Initiator) && d in w.machines
    ensures var w := Run(platform, start, steps);
            && Activated(d, a, e, Responder) in w.log[..i]
            && a in w.machines && e in w.machines[a].ledger && e in w.machines[d].ledger
            && w.machines[d].ledger[e].role == Responder && w.machines[d].ledger[e].stage == Confirmed
            && w.machines[a].ledger[e].role == Initiator
               && w.machines[a].ledger[e].terms == w.machines[d].ledger[e].terms
            && Proven(w, d, a) && w.machines[d].trust[a].key == w.machines[a].identity.key
            && Proven(w, a, d) && w.machines[a].trust[d].key == w.machines[d].identity.key
  {
    var w := Run(platform, start, steps);
    RunKeeps(platform, start, steps);
    FinalizedTogether(platform, w, i, a, d, e);
    ConfirmedTogether(platform, w, d, a, e);
    ProvenPinsTheKey(platform, w, a, d);
    ProvenPinsTheKey(platform, w, d, a);
  }

  /**
   Agreement for the responder. When confirm raises `a` to active for enrollment `e`, the honest
   initiator `a` has accepted `e` with exactly the responder's terms.
   */
  lemma ConfirmAgreement(platform: Platform, start: World, steps: seq<Step>, d: Text, a: Text, e: Text)
    requires Injective(platform) && Fresh(platform, start)
    requires var w := Run(platform, start, steps); Activated(d, a, e, Responder) in w.log && a in w.machines
    ensures var w := Run(platform, start, steps);
            && d in w.machines && e in w.machines[a].ledger && e in w.machines[d].ledger
            && w.machines[a].ledger[e].role == Initiator && w.machines[a].ledger[e].stage in {Accepted, Confirmed}
            && w.machines[d].ledger[e].role == Responder
               && w.machines[d].ledger[e].terms == w.machines[a].ledger[e].terms
            && Proven(w, d, a) && w.machines[d].trust[a].key == w.machines[a].identity.key
  {
    var w := Run(platform, start, steps);
    RunKeeps(platform, start, steps);
    ConfirmedTogether(platform, w, d, a, e);
    ProvenPinsTheKey(platform, w, d, a);
    assert MachineOk(platform, w, a, w.machines[a]);
  }

  /** What the entry of one machine says about the other machine's. */
  ghost predicate Agree(w: World, me: Text, e: Text, mine: LedgerEntry) {
    var other := if mine.role == Initiator then mine.terms.destination else mine.terms.origin;
    && mine.terms.enrollmentId == e
       && me == (if mine.role == Initiator then mine.terms.origin else mine.terms.destination)
    && (other in w.machines && mine.stage != Offered ==>
          && e in w.machines[other].ledger
          && var theirs := w.machines[other].ledger[e];
             && theirs.role != mine.role && OriginHalf(theirs.terms) == OriginHalf(mine.terms)
             && (theirs.stage != Offered ==> theirs.terms == mine.terms)
             && (mine.stage == Confirmed ==>
                theirs.stage == Confirmed || (mine.role == Responder && theirs.stage == Accepted)))
  }

  lemma InitiatorAgrees(platform: Platform, w: World, me: Text, e: Text)
    requires Ok(platform, w) && me in w.machines && e in w.machines[me].ledger
    requires w.machines[me].ledger[e].role == Initiator
    ensures Agree(w, me, e, w.machines[me].ledger[e])
  {
    assert MachineOk(platform, w, me, w.machines[me]);
    assert EntryOk(w, me, e, w.machines[me].ledger[e]);
  }

  lemma ResponderAgrees(platform: Platform, w: World, me: Text, e: Text)
    requires Ok(platform, w) && me in w.machines && e in w.machines[me].ledger
    requires w.machines[me].ledger[e].role == Responder
    ensures Agree(w, me, e, w.machines[me].ledger[e])
  {
    var mine := w.machines[me].ledger[e];
    assert MachineOk(platform, w, me, w.machines[me]);
    assert EntryOk(w, me, e, mine);
    if mine.terms.origin in w.machines {
      InitiatorAgrees(platform, w, mine.terms.origin, e);
      assert EntryOk(w, mine.terms.origin, e, w.machines[mine.terms.origin].ledger[e]);
    }
  }

  /** The two ledgers of an enrollment between honest machines agree at every moment of every run. */
  lemma LedgersAgree(platform: Platform, start: World, steps: seq<Step>, me: Text, e: Text)
    requires Injective(platform) && Fresh(platform, start)
    requires var w := Run(platform, start, steps); me in w.machines && e in w.machines[me].ledger
    ensures var w := Run(platform, start, steps); Agree(w, me, e, w.machines[me].ledger[e])
  {
    var w := Run(platform, start, steps);
    RunKeeps(platform, start, steps);
    if w.machines[me].ledger[e].role == Initiator {
      InitiatorAgrees(platform, w, me, e);
    } else {
      ResponderAgrees(platform, w, me, e);
    }
  }

  /** On one machine no stage of one enrollment ever returns twice, whatever is replayed to it. */
  lemma StagesAreSingleUse(platform: Platform, start: World, steps: seq<Step>, i: nat, j: nat, me: Text,
      stage: Option<Stage>, id: Text)
    requires Injective(platform) && Fresh(platform, start)
    requires var w := Run(platform, start, steps);
             i < |w.log| && j < |w.log| && w.log[i] == Returned(me, stage, id) && w.log[j] == Returned(me, stage, id)
    ensures i == j
  {
    RunKeeps(platform, start, steps);
  }

  /** The record under which an accept was signed pins the key of the honest machine that dialed. */
  lemma RecordPinsTheDialer(platform: Platform, w: World, me: Text, t: AcceptTerms, r: TrustRecord)
    requires Injective(platform) && Ok(platform, w) && AcceptSigned(me, t, r) in w.log
    requires (t.init.initiator, t.init) in w.dials
    ensures t.init.initiator in w.machines && r.state == Active && r.policy == t.responderPolicy
    ensures var key := w.machines[t.init.initiator].identity.key;
              r.key == key && r.fingerprint == platform.fingerprintOf(key)
  {
    assert DialOk(platform, w, t.init.initiator, t.init);
    var j :| 0 <= j < |w.log| && w.log[j] == AcceptSigned(me, t, r);
    assert EventOk(w, w.log[..j], w.log[j]);
    assert MachineOk(platform, w, me, w.machines[me]);
    assert MachineOk(platform, w, t.init.initiator, w.machines[t.init.initiator]);
    AuthorityNamesOneKey(platform, r.key, w.machines[t.init.initiator].identity.key);
  }

  /**
   Agreement for the relay. When the machine that dialed becomes connected, the accept repeats its
   own dial; and an honest responder signed exactly this accept earlier, while it held an active
   record that pins the initiator's key.
   */
  lemma RelayAgreement(platform: Platform, start: World, steps: seq<Step>, i: nat, me: Text, t: AcceptTerms)
      returns (j: nat, r: TrustRecord)
    requires Injective(platform) && Fresh(platform, start)
    requires var w := Run(platform, start, steps);
               i < |w.log| && w.log[i] == Connected(me, t) && t.init.responder in w.machines
    ensures var w := Run(platform, start, steps);
            && (me, t.init) in w.dials
            && j < i && w.log[j] == AcceptSigned(t.init.responder, t, r)
            && r.state == Active && me in w.machines && r.key == w.machines[me].identity.key
            && r.fingerprint == platform.fingerprintOf(w.machines[me].identity.key) && r.policy == t.responderPolicy
  {
    var w := Run(platform, start, steps);
    RunKeeps(platform, start, steps);
    assert EventOk(w, w.log[..i], w.log[i]);
    assert DialOk(platform, w, me, t.init);
    r :| AcceptSigned(t.init.responder, t, r) in w.log[..i];
    j :| 0 <= j < i && w.log[..i][j] == AcceptSigned(t.init.responder, t, r);
    RecordPinsTheDialer(platform, w, t.init.responder, t, r);
  }

  /** And an accept is only ever signed for an honest initiator that dialed exactly so. */
  lemma AnsweredOnlyIfDialed(platform: Platform, start: World, steps: seq<Step>, i: nat, me: Text, t: AcceptTerms,
      r: TrustRecord)
    requires Injective(platform) && Fresh(platform, start)
    requires var w := Run(platform, start, steps);
               i < |w.log| && w.log[i] == AcceptSigned(me, t, r) && t.init.initiator in w.machines
    ensures var w := Run(platform, start, steps);
            t.init.responder == me && (t.init.initiator, t.init) in w.dials && r.state == Active
                && r.authority == t.init.initiator
  {
    var w := Run(platform, start, steps);
    RunKeeps(platform, start, steps);
    assert EventOk(w, w.log[..i], w.log[i]);
  }

  // ---------------------------------------------------------------- trust is earned

  /** `p` became confirming or active on `a`: it was not in that state before. */
  ghost predicate Gained(before: Trust, after: Trust, p: Text) {
    p in after && (after[p].state == Confirming || after[p].state == Active)
        && !(p in before && before[p].state == after[p].state)
  }

  lemma AdvanceGainsOne(platform: Platform, trust: Trust, authority: Text, key: Text, policy: Value,
      toState: TrustState, p: Text)
    requires StoreWf(platform, trust) && authority == platform.AuthorityFor(key)
    requires MayPin(platform, trust, authority, key, policy)
    requires toState == Confirming || toState == Active
    requires Gained(trust, Advanced(platform, trust, authority, key, policy, toState), p)
    ensures p == authority && Advanced(platform, trust, authority, key, policy, toState)[p].key == key
    ensures Advanced(platform, trust, authority, key, policy, toState)[p].state == toState
  {
  }

  /** The peer's signature that stands behind a gain of `me`: over an artifact of this stage from the peer to `me`. */
  ghost predicate ProofOf(w: World, me: Text, p: Text, key: Text, state: TrustState, stage: Stage, a: Artifact) {
    && Signed(key, Transcript(Enrollment(stage, a.terms)), a.signature) in w.signatures
    && p == (if stage == Offer || stage == Accept then a.terms.origin else a.terms.destination)
    && me == (if stage == Offer || stage == Accept then a.terms.destination else a.terms.origin)
    && (state == Active <==> stage == Accept || stage == Confirm)
  }

  ghost predicate Earned(w: World, me: Text, p: Text, record: TrustRecord) {
    exists stage: Stage, a: Artifact :: ProofOf(w, me, p, record.key, record.state, stage, a)
  }

  lemma ChallengeEarns(platform: Platform, w: World, me: Text, c: Call, offer: Artifact, policy: Value, nonce: Text,
      p: Text)
    requires Ok(platform, w) && me in w.machines && c == CallOf(platform, w, me, c.now)
    requires var r := ChallengeStage(c, w.machines[me].trust, w.machines[me].ledger, offer, policy, nonce);
             !r.Refused? && Gained(w.machines[me].trust, r.trust, p)
    ensures Earned(w, me, p, ChallengeStage(c, w.machines[me].trust, w.machines[me].ledger, offer, policy,
              nonce).trust[p])
  {
    var t := offer.terms;
    var der := platform.derOf(t.originKey).value;
    assert MachineOk(platform, w, me, w.machines[me]);
    AdvanceGainsOne(platform, w.machines[me].trust, t.origin, der, policy, Confirming, p);
    assert ProofOf(w, me, p, der, Confirming, Offer, offer);
  }

  lemma AcceptEarns(platform: Platform, w: World, me: Text, c: Call, challenge: Artifact, p: Text)
    requires Ok(platform, w) && me in w.machines && c == CallOf(platform, w, me, c.now)
    requires var r := AcceptStage(c, w.machines[me].trust, w.machines[me].ledger, challenge);
             !r.Refused? && Gained(w.machines[me].trust, r.trust, p)
    ensures Earned(w, me, p, AcceptStage(c, w.machines[me].trust, w.machines[me].ledger, challenge).trust[p])
  {
    var t := challenge.terms;
    var der := platform.derOf(t.destinationKey.value).value;
    assert MachineOk(platform, w, me, w.machines[me]);
    AdvanceGainsOne(platform, w.machines[me].trust, t.destination, der,
        w.machines[me].ledger[t.enrollmentId].terms.originPolicy, Confirming, p);
    assert ProofOf(w, me, p, der, Confirming, Challenge, challenge);
  }

  lemma ConfirmEarns(platform: Platform, w: World, me: Text, c: Call, accept: Artifact, p: Text)
    requires Ok(platform, w) && me in w.machines && c == CallOf(platform, w, me, c.now)
    requires var r := ConfirmStage(c, w.machines[me].trust, w.machines[me].ledger, accept);
             !r.Refused? && Gained(w.machines[me].trust, r.trust, p)
    ensures Earned(w, me, p, ConfirmStage(c, w.machines[me].trust, w.machines[me].ledger, accept).trust[p])
  {
    var t := accept.terms;
    var der := platform.derOf(t.originKey).value;
    assert MachineOk(platform, w, me, w.machines[me]);
    AdvanceGainsOne(platform, w.machines[me].trust, t.origin, der,
        ValueOrNull(w.machines[me].ledger[t.enrollmentId].terms.destinationPolicy), Active, p);
    assert ProofOf(w, me, p, der, Active, Accept, accept);
  }

  lemma FinalizeEarns(platform: Platform, w: World, me: Text, c: Call, confirm: Artifact, p: Text)
    requires Ok(platform, w) && me in w.machines && c == CallOf(platform, w, me, c.now)
    requires var r := FinalizeStage(c, w.machines[me].trust, w.machines[me].ledger, confirm);
             !r.Refused? && Gained(w.machines[me].trust, r.trust, p)
    ensures Earned(w, me, p, FinalizeStage(c, w.machines[me].trust, w.machines[me].ledger, confirm).trust[p])
  {
    var t := confirm.terms;
    var der := platform.derOf(t.destinationKey.value).value;
    assert MachineOk(platform, w, me, w.machines[me]);
    AdvanceGainsOne(platform, w.machines[me].trust, t.destination, der,
        w.machines[me].ledger[t.enrollmentId].terms.originPolicy, Active, p);
    assert ProofOf(w, me, p, der, Active, Confirm, confirm);
  }

  /** A stage call changes the trust of the calling machine to what the stage computed, crash or not. */
  lemma ReturnTrust(platform: Platform, w: World, me: Text, r: StageResult, crash: Crash, proof: Option<Event>,
      stage: Option<Stage>, id: Text, a: Text)
    requires me in w.machines && a in w.machines
    ensures var w' := Return(platform, w, me, r, crash, proof, stage, id);
            a in w'.machines && w'.machines[a].trust == if a == me && !r.Refused? then r.trust else w.machines[a].trust
  {
  }

  lemma EnrollmentEarns(platform: Platform, w: World, step: Step, a: Text, p: Text)
    requires Ok(platform, w) && a in w.machines && Enrolls(step) && step.me in w.machines
    requires var w' := EnrollmentNext(platform, w, step);
               a in w'.machines && Gained(w.machines[a].trust, w'.machines[a].trust, p)
    ensures !step.DoOffer? && step.me == a && Earned(w, a, p, EnrollmentNext(platform, w, step).machines[a].trust[p])
  {
    var m := w.machines[step.me];
    var c := CallOf(platform, w, step.me, step.now);
    match step {
      case DoOffer(me, peer, policy, ttl, nonce, id, now, crash) =>
        ReturnTrust(platform, w, me, OfferStage(c, m.trust, m.ledger, peer, policy, ttl, nonce, id), crash, None,
            Some(Offer), id, a);
      case DoChallenge(me, raw, policy, nonce, now, crash) =>
        var read := ReadArtifact(platform, Offer, raw, now);
        ChallengeStepEarns(platform, w, me, read, policy, nonce, now, crash, a, p);
      case DoAccept(me, raw, now, crash) =>
          AcceptStepEarns(platform, w, me, ReadArtifact(platform, Challenge, raw, now), now, crash, a, p);
      case DoConfirm(me, raw, now, crash) =>
          ConfirmStepEarns(platform, w, me, ReadArtifact(platform, Accept, raw, now), now, crash, a, p);
      case DoFinalize(me, raw, now, crash) =>
          FinalizeStepEarns(platform, w, me, ReadArtifact(platform, Confirm, raw, now), now, crash, a, p);
    }
  }

  lemma ChallengeStepEarns(platform: Platform, w: World, me: Text, read: Option<Artifact>, policy: Value, nonce: Text,
      now: int, crash: Crash, a: Text, p: Text)
    requires Ok(platform, w) && a in w.machines && me in w.machines
    requires var w' := ChallengeStep(platform, w, me, read, policy, nonce, now, crash);
               a in w'.machines && Gained(w.machines[a].trust, w'.machines[a].trust, p)
    ensures me == a
    ensures Earned(w, a, p, ChallengeStep(platform, w, me, read, policy, nonce, now, crash).machines[a].trust[p])
  {
    var c := CallOf(platform, w, me, now);
    var r := ChallengeStage(c, w.machines[me].trust, w.machines[me].ledger, read.value, policy, nonce);
    ReturnTrust(platform, w, me, r, crash, None, Some(Challenge), read.value.terms.enrollmentId, a);
    ChallengeEarns(platform, w, me, c, read.value, policy, nonce, p);
  }

  lemma AcceptStepEarns(platform: Platform, w: World, me: Text, read: Option<Artifact>, now: int, crash: Crash,
      a: Text, p: Text)
    requires Ok(platform, w) && a in w.machines && me in w.machines
    requires var w' := AcceptStep(platform, w, me, read, now, crash);
               a in w'.machines && Gained(w.machines[a].trust, w'.machines[a].trust, p)
    ensures me == a && Earned(w, a, p, AcceptStep(platform, w, me, read, now, crash).machines[a].trust[p])
  {
    var c := CallOf(platform, w, me, now);
    var r := AcceptStage(c, w.machines[me].trust, w.machines[me].ledger, read.value);
    ReturnTrust(platform, w, me, r, crash, None, Some(Accept), read.value.terms.enrollmentId, a);
    AcceptEarns(platform, w, me, c, read.value, p);
  }

  lemma ConfirmStepEarns(platform: Platform, w: World, me: Text, read: Option<Artifact>, now: int, crash: Crash,
      a: Text, p: Text)
    requires Ok(platform, w) && a in w.machines && me in w.machines
    requires var w' := ConfirmStep(platform, w, me, read, now, crash);
               a in w'.machines && Gained(w.machines[a].trust, w'.machines[a].trust, p)
    ensures me == a && Earned(w, a, p, ConfirmStep(platform, w, me, read, now, crash).machines[a].trust[p])
  {
    var c := CallOf(platform, w, me, now);
    var t := read.value.terms;
    var r := ConfirmStage(c, w.machines[me].trust, w.machines[me].ledger, read.value);
    ReturnTrust(platform, w, me, r, crash, Some(Activated(me, t.origin, t.enrollmentId, Responder)), Some(Confirm),
        t.enrollmentId, a);
    ConfirmEarns(platform, w, me, c, read.value, p);
  }

  lemma FinalizeStepEarns(platform: Platform, w: World, me: Text, read: Option<Artifact>, now: int, crash: Crash,
      a: Text, p: Text)
    requires Ok(platform, w) && a in w.machines && me in w.machines
    requires var w' := FinalizeStep(platform, w, me, read, now, crash);
               a in w'.machines && Gained(w.machines[a].trust, w'.machines[a].trust, p)
    ensures me == a && Earned(w, a, p, FinalizeStep(platform, w, me, read, now, crash).machines[a].trust[p])
  {
    var c := CallOf(platform, w, me, now);
    var t := read.value.terms;
    var r := FinalizeStage(c, w.machines[me].trust, w.machines[me].ledger, read.value);
    ReturnTrust(platform, w, me, r, crash, Some(Activated(me, t.destination, t.enrollmentId, Initiator)), None,
        t.enrollmentId, a);
    FinalizeEarns(platform, w, me, c, read.value, p);
  }

  /**
   Only the proof-gated stages raise trust: if a step makes `p` confirming or active on `a`, the
   step is one of them, run by `a`, and a signature by the pinned key over an artifact that names
   `p` verified; only an accept or a confirm of `p` makes it active.
   */
  lemma TrustNeedsProof(platform: Platform, w: World, step: Step, a: Text, p: Text)
    requires Ok(platform, w) && a in w.machines
    requires var w' := Next(platform, w, step); a in w'.machines && Gained(w.machines[a].trust, w'.machines[a].trust, p)
    ensures Enrolls(step) && !step.DoOffer? && step.me == a
    ensures Earned(w, a, p, Next(platform, w, step).machines[a].trust[p])
  {
    assert MachineOk(platform, w, a, w.machines[a]);
    if !step.Forge? && step.me in w.machines && Enrolls(step) {
      EnrollmentEarns(platform, w, step, a, p);
    } else {
      NoGainElsewhere(platform, w, step, a);
    }
  }

  lemma HandshakesLeaveMachines(platform: Platform, w: World, step: Step)
    requires Handshakes(step) && step.me in w.machines
    ensures HandshakeNext(platform, w, step).machines == w.machines
  {
  }

  lemma NoGainElsewhere(platform: Platform, w: World, step: Step, a: Text)
    requires Ok(platform, w) && a in w.machines && (step.Forge? || step.me !in w.machines || !Enrolls(step))
    ensures var w' := Next(platform, w, step); a in w'.machines && NoGain(w.machines[a].trust, w'.machines[a].trust)
  {
    assert MachineOk(platform, w, a, w.machines[a]);
    var trust := w.machines[a].trust;
    if !step.Forge? && step.me in w.machines && Handshakes(step) { HandshakesLeaveMachines(platform, w, step); }
    match step
    case DoPrepare(me, authority, key, policy, now) =>
      if me == a && AdvanceGuard(platform, trust, authority, key, policy, now) {
        PrepareKeeps(platform, trust, authority, key, policy);
      }
    case DoRevoke(me, authority, reason) =>
      if me == a && RevokeGuard(trust, authority, reason) { RevokeKeeps(platform, trust, authority, reason); }
    case _ => assert Next(platform, w, step).machines == w.machines;
  }

  /**
   In every run, whoever is confirming or active on a machine proved it with a signature by the pinned key,
   addressed to that machine.
   */
  lemma {:induction false} TrustIsEarned(platform: Platform, start: World, steps: seq<Step>, a: Text, p: Text)
    requires Injective(platform) && Fresh(platform, start)
    requires var w := Run(platform, start, steps);
             a in w.machines && p in w.machines[a].trust && w.machines[a].trust[p].state in {Confirming, Active}
    ensures var w := Run(platform, start, steps); Earned(w, a, p, w.machines[a].trust[p])
    decreases |steps|
  {
    if steps != [] {
      var init := steps[..|steps| - 1];
      var v := Run(platform, start, init);
      var w := Run(platform, start, steps);
      RunKeeps(platform, start, init);
      NextKeeps(platform, v, steps[|steps| - 1]);
      assert MachineExtends(v.machines[a], w.machines[a]);
      if Gained(v.machines[a].trust, w.machines[a].trust, p) {
        TrustNeedsProof(platform, v, steps[|steps| - 1], a, p);
      } else {
        TrustIsEarned(platform, start, init, a, p);
      }
      EarnedStable(v, w, a, p, w.machines[a].trust[p]);
    }
  }

  lemma EarnedStable(v: World, w: World, me: Text, p: Text, record: TrustRecord)
    requires v.signatures <= w.signatures && Earned(v, me, p, record)
    ensures Earned(w, me, p, record)
  {
    var stage: Stage, a: Artifact :| ProofOf(v, me, p, record.key, record.state, stage, a);
    assert ProofOf(w, me, p, record.key, record.state, stage, a);
  }
}
