/** What every run of the federation keeps: each released signature stands for durable state. */
module FederationInvariant {
  import opened Options
  import opened Utf16
  import opened JsonGrammar
  import JsonTheorems
  import opened Transcripts
  import opened Artifacts
  import opened PeerTrust
  import opened Enrollment
  import opened RelayHandshake
  import opened Federation

  // ---------------------------------------------------------------- growth

  /** The fields that an offer already fixes. */
  function OriginHalf(t: Terms): Terms {
    t.(destinationKey := None, destinationFingerprint := None, destinationPolicy := None, destinationNonce := None)
  }

  predicate HasDestination(t: Terms) {
    t.destinationKey.Some? && t.destinationFingerprint.Some? && t.destinationNonce.Some?
    && t.destinationPolicy.Some? && t.destinationPolicy.value.Object?
  }

  function StageRank(stage: LedgerStage): nat {
    match stage
    case Offered => 0
    case Challenged => 0
    case Accepted => 1
    case Confirmed => 2
  }

  /** An entry moves forward only; the destination's half is filled in once. */
  predicate EntryExtends(before: LedgerEntry, after: LedgerEntry) {
    && after.role == before.role && StageRank(before.stage) <= StageRank(after.stage)
    && OriginHalf(after.terms) == OriginHalf(before.terms)
    && (before.stage != Offered ==> after.stage != Offered && after.terms == before.terms)
  }

  ghost predicate LedgerExtends(before: Ledger, after: Ledger) {
    forall e | e in before :: e in after && EntryExtends(before[e], after[e])
  }

  ghost predicate MachineExtends(before: Machine, after: Machine) {
    after.identity == before.identity && Extends(before.trust, after.trust)
        && LedgerExtends(before.ledger, after.ledger)
  }

  ghost predicate WorldExtends(before: World, after: World) {
    && after.machines.Keys == before.machines.Keys
    && (forall a | a in before.machines :: MachineExtends(before.machines[a], after.machines[a]))
    && before.signatures <= after.signatures && before.statements <= after.statements && before.dials <= after.dials
    && before.log <= after.log
  }

  // ---------------------------------------------------------------- the invariant

  /** `a` holds entry `e` in this role, at least this far, with exactly these terms. */
  ghost predicate Holds(w: World, a: Text, e: Text, role: Role, rank: nat, terms: Terms) {
    && a in w.machines && e in w.machines[a].ledger
    && var entry := w.machines[a].ledger[e];
       entry.role == role && entry.stage != Offered && StageRank(entry.stage) >= rank && entry.terms == terms
  }

  /** `a` offered `e` with this origin half. */
  ghost predicate Offers(w: World, a: Text, e: Text, terms: Terms) {
    && a in w.machines && e in w.machines[a].ledger
    && w.machines[a].ledger[e].role == Initiator && OriginHalf(w.machines[a].ledger[e].terms) == OriginHalf(terms)
  }

  /** `a` trusts or has since revoked `peer`. */
  ghost predicate Proven(w: World, a: Text, peer: Text) {
    a in w.machines && peer in w.machines[a].trust && Rank(w.machines[a].trust[peer].state) >= Rank(Active)
  }

  predicate EntryShape(me: Text, e: Text, entry: LedgerEntry) {
    && entry.terms.enrollmentId == e && entry.terms.version == FEDERATION_PROTOCOL_VERSION
    && Signable(Enrollment(Offer, entry.terms)) && entry.terms.originPolicy.Object?
    && (if entry.role == Initiator then entry.terms.origin == me && entry.stage != Challenged
        else entry.terms.destination == me && entry.stage != Offered && entry.stage != Accepted)
    && (if entry.stage == Offered then entry.terms == OriginHalf(entry.terms) else HasDestination(entry.terms))
  }

  /** How far the other end of an enrollment must be, whenever it is an honest machine. */
  ghost predicate PeerAgrees(w: World, entry: LedgerEntry) {
    var t := entry.terms;
    if entry.role == Responder then
      t.origin in w.machines ==>
        Offers(w, t.origin, t.enrollmentId, t) &&
        (entry.stage == Confirmed ==> Holds(w, t.origin, t.enrollmentId, Initiator, 1, t))
    else
      entry.stage != Offered && t.destination in w.machines ==>
        Holds(w, t.destination, t.enrollmentId, Responder, if entry.stage == Confirmed then 2 else 0, t)
  }

  ghost predicate EntryOk(w: World, me: Text, e: Text, entry: LedgerEntry) {
    EntryShape(me, e, entry) && PeerAgrees(w, entry)
  }

  ghost predicate PoliciesPrintable(trust: Trust) {
    forall a | a in trust :: JsonTheorems.Printable(trust[a].policy)
  }

  ghost predicate MachineOk(platform: Platform, w: World, me: Text, m: Machine) {
    && IdentityOk(platform, me, m.identity)
    && StoreWf(platform, m.trust) && PoliciesPrintable(m.trust)
    && forall e | e in m.ledger :: EntryOk(w, me, e, m.ledger[e])
  }

  ghost predicate SignedAccept(w: World, me: Text, terms: AcceptTerms, log: seq<Event>) {
    exists r: TrustRecord :: AcceptSigned(me, terms, r) in log
  }

  /** What a machine's signature on a statement stands for. */
  ghost predicate Vouched(w: World, me: Text, s: Statement) {
    match s
    case Enrollment(Offer, t) => t.origin == me && Offers(w, me, t.enrollmentId, t)
    case Enrollment(Challenge, t) => t.destination == me && Holds(w, me, t.enrollmentId, Responder, 0, t)
    case Enrollment(Accept, t) => t.origin == me && Holds(w, me, t.enrollmentId, Initiator, 1, t)
    case Enrollment(Confirm, t) =>
      t.destination == me && Holds(w, me, t.enrollmentId, Responder, 2, t)
          && Activated(me, t.origin, t.enrollmentId, Responder) in w.log
    case RelayInit(t) => t.initiator == me && (me, t) in w.dials
    case RelayAccept(t) => t.init.responder == me && SignedAccept(w, me, t, w.log)
    case TerminalCapability(_) => true
  }

  ghost predicate StatementOk(w: World, me: Text, s: Statement) {
    me in w.machines && Signable(s) && Vouched(w, me, s)
  }

  ghost predicate Stated(w: World, me: Text, transcript: Text) {
    exists s: Statement :: (me, s) in w.statements && Transcript(s) == transcript
  }

  ghost predicate SignatureOk(w: World, signed: Signed) {
    forall a | a in w.machines && w.machines[a].identity.key == signed.key :: Stated(w, a, signed.transcript)
  }

  ghost predicate DialOk(platform: Platform, w: World, me: Text, t: InitTerms) {
    && me in w.machines && JsonTheorems.Printable(t.initiatorPolicy)
    && t.initiator == me && t.initiatorFingerprint == platform.fingerprintOf(w.machines[me].identity.key)
  }

  /** What the log may say, given what it said before. */
  ghost predicate EventOk(w: World, before: seq<Event>, event: Event) {
    match event
    case Activated(me, peer, id, Responder) =>
      && me in w.machines && id in w.machines[me].ledger && Proven(w, me, peer)
      && var entry := w.machines[me].ledger[id];
         entry.role == Responder && entry.stage != Offered && entry.terms.origin == peer
         && (peer in w.machines ==> Holds(w, peer, id, Initiator, 1, entry.terms))
    case Activated(me, peer, id, Initiator) =>
      && me in w.machines && id in w.machines[me].ledger && Proven(w, me, peer)
      && var entry := w.machines[me].ledger[id];
         entry.role == Initiator && entry.stage != Offered && entry.terms.destination == peer
         && (peer in w.machines ==>
            Holds(w, peer, id, Responder, 2, entry.terms) && Activated(peer, me, id, Responder) in before)
    case Returned(me, stage, id) =>
      && me in w.machines && id in w.machines[me].ledger && Past(w.machines[me].ledger[id], stage)
    case AcceptSigned(me, t, r) =>
      && me in w.machines && t.init.responder == me && r.authority == t.init.initiator && r.state == Active
         && TrustMatches(r, t.init.initiatorFingerprint)
      && r.policy == t.responderPolicy
      && t.init.initiator in w.machines[me].trust && w.machines[me].trust[t.init.initiator].key == r.key
      && (t.init.initiator in w.machines ==> (t.init.initiator, t.init) in w.dials)
    case Connected(me, t) =>
      && (me, t.init) in w.dials && Proven(w, me, t.init.responder)
      && w.machines[me].trust[t.init.responder].fingerprint == t.responderFingerprint
      && (t.init.responder in w.machines ==> SignedAccept(w, t.init.responder, t, before))
  }

  /** The entry is beyond the point where this stage could run. */
  predicate Past(entry: LedgerEntry, stage: Option<Stage>) {
    match stage
    case Some(Offer) => entry.role == Initiator
    case Some(Challenge) => entry.role == Responder
    case Some(Accept) => entry.role == Initiator && StageRank(entry.stage) >= 1
    case Some(Confirm) => entry.role == Responder && StageRank(entry.stage) >= 2
    case None => entry.role == Initiator && StageRank(entry.stage) >= 2
  }

  ghost predicate LogOk(w: World) {
    forall i | 0 <= i < |w.log| :: EventOk(w, w.log[..i], w.log[i])
  }

  /** No stage of an enrollment returned twice on one machine. */
  ghost predicate ReturnsOnce(log: seq<Event>) {
    forall i, j | 0 <= i < j < |log| && log[i].Returned? :: log[i] != log[j]
  }

  ghost predicate Ok(platform: Platform, w: World) {
    && (forall a | a in w.machines :: MachineOk(platform, w, a, w.machines[a]))
    && (forall a, s | (a, s) in w.statements :: StatementOk(w, a, s))
    && (forall s | s in w.signatures :: SignatureOk(w, s))
    && (forall a, t | (a, t) in w.dials :: DialOk(platform, w, a, t))
    && LogOk(w) && ReturnsOnce(w.log)
  }

  // ---------------------------------------------------------------- stability under growth

  lemma HoldsStable(v: World, w: World, a: Text, e: Text, role: Role, rank: nat, terms: Terms)
    requires WorldExtends(v, w) && Holds(v, a, e, role, rank, terms)
    ensures Holds(w, a, e, role, rank, terms)
  {
    assert MachineExtends(v.machines[a], w.machines[a]);
    assert EntryExtends(v.machines[a].ledger[e], w.machines[a].ledger[e]);
  }

  lemma OffersStable(v: World, w: World, a: Text, e: Text, terms: Terms)
    requires WorldExtends(v, w) && Offers(v, a, e, terms)
    ensures Offers(w, a, e, terms)
  {
    assert MachineExtends(v.machines[a], w.machines[a]);
    assert EntryExtends(v.machines[a].ledger[e], w.machines[a].ledger[e]);
  }

  lemma ProvenStable(v: World, w: World, a: Text, peer: Text)
    requires WorldExtends(v, w) && Proven(v, a, peer)
    ensures Proven(w, a, peer)
  {
    assert MachineExtends(v.machines[a], w.machines[a]);
  }

  lemma PeerAgreesStable(v: World, w: World, entry: LedgerEntry)
    requires WorldExtends(v, w) && PeerAgrees(v, entry)
    ensures PeerAgrees(w, entry)
  {
    var t := entry.terms;
    if entry.role == Responder {
      if t.origin in w.machines {
        OffersStable(v, w, t.origin, t.enrollmentId, t);
        if entry.stage == Confirmed { HoldsStable(v, w, t.origin, t.enrollmentId, Initiator, 1, t); }
      }
    } else if entry.stage != Offered && t.destination in w.machines {
      HoldsStable(v, w, t.destination, t.enrollmentId, Responder, if entry.stage == Confirmed then 2 else 0, t);
    }
  }

  lemma StatementStable(v: World, w: World, me: Text, s: Statement)
    requires WorldExtends(v, w) && StatementOk(v, me, s)
    ensures StatementOk(w, me, s)
  {
    match s {
      case Enrollment(Offer, t) => OffersStable(v, w, me, t.enrollmentId, t);
      case Enrollment(Challenge, t) => HoldsStable(v, w, me, t.enrollmentId, Responder, 0, t);
      case Enrollment(Accept, t) => HoldsStable(v, w, me, t.enrollmentId, Initiator, 1, t);
      case Enrollment(Confirm, t) => HoldsStable(v, w, me, t.enrollmentId, Responder, 2, t);
      case RelayInit(_) =>
      case RelayAccept(t) =>
        var r :| AcceptSigned(me, t, r) in v.log;
        assert AcceptSigned(me, t, r) in w.log;
      case TerminalCapability(_) =>
    }
  }

  lemma SignatureStable(v: World, w: World, signed: Signed)
    requires WorldExtends(v, w) && SignatureOk(v, signed)
    ensures SignatureOk(w, signed)
  {
    forall a | a in w.machines && w.machines[a].identity.key == signed.key
      ensures Stated(w, a, signed.transcript)
    {
      assert MachineExtends(v.machines[a], w.machines[a]);
      assert Stated(v, a, signed.transcript);
      var s :| (a, s) in v.statements && Transcript(s) == signed.transcript;
      assert (a, s) in w.statements;
    }
  }

  lemma ActivatedStable(v: World, w: World, before: seq<Event>, me: Text, peer: Text, id: Text, role: Role)
    requires WorldExtends(v, w) && EventOk(v, before, Activated(me, peer, id, role))
    ensures EventOk(w, before, Activated(me, peer, id, role))
  {
    ProvenStable(v, w, me, peer);
    assert MachineExtends(v.machines[me], w.machines[me]);
    assert EntryExtends(v.machines[me].ledger[id], w.machines[me].ledger[id]);
    var terms := v.machines[me].ledger[id].terms;
    if peer in w.machines {
      match role {
        case Responder => HoldsStable(v, w, peer, id, Initiator, 1, terms);
        case Initiator => HoldsStable(v, w, peer, id, Responder, 2, terms);
      }
    }
  }

  lemma EventStable(v: World, w: World, before: seq<Event>, event: Event)
    requires WorldExtends(v, w) && EventOk(v, before, event)
    ensures EventOk(w, before, event)
  {
    match event {
      case Activated(me, peer, id, role) => ActivatedStable(v, w, before, me, peer, id, role);
      case Returned(me, stage, id) =>
        assert MachineExtends(v.machines[me], w.machines[me]);
        assert EntryExtends(v.machines[me].ledger[id], w.machines[me].ledger[id]);
      case AcceptSigned(me, _, _) => assert MachineExtends(v.machines[me], w.machines[me]);
      case Connected(me, t) =>
        ProvenStable(v, w, me, t.init.responder);
        assert MachineExtends(v.machines[me], w.machines[me]);
    }
  }

  lemma MachineStable(platform: Platform, v: World, w: World, me: Text, m: Machine)
    requires WorldExtends(v, w) && MachineOk(platform, v, me, m)
    ensures MachineOk(platform, w, me, m)
  {
    forall e | e in m.ledger
      ensures EntryOk(w, me, e, m.ledger[e])
    {
      PeerAgreesStable(v, w, m.ledger[e]);
    }
  }

  lemma ExtendsItself(w: World)
    ensures WorldExtends(w, w)
  {
  }

  lemma SameMachinesExtend(v: World, w: World)
    requires w.machines == v.machines && v.signatures <= w.signatures && v.statements <= w.statements
    requires v.dials <= w.dials && v.log <= w.log
    ensures WorldExtends(v, w)
  {
  }

  lemma MachineExtendsTransitive(a: Machine, b: Machine, c: Machine)
    requires MachineExtends(a, b) && MachineExtends(b, c)
    ensures MachineExtends(a, c)
  {
    ExtendsTransitive(a.trust, b.trust, c.trust);
    forall e | e in a.ledger
      ensures e in c.ledger && EntryExtends(a.ledger[e], c.ledger[e])
    {
      assert EntryExtends(a.ledger[e], b.ledger[e]) && EntryExtends(b.ledger[e], c.ledger[e]);
    }
  }

  lemma WorldExtendsTransitive(u: World, v: World, w: World)
    requires WorldExtends(u, v) && WorldExtends(v, w)
    ensures WorldExtends(u, w)
  {
    forall a | a in u.machines
      ensures MachineExtends(u.machines[a], w.machines[a])
    {
      MachineExtendsTransitive(u.machines[a], v.machines[a], w.machines[a]);
    }
  }

  // ---------------------------------------------------------------- the three things a step can do

  /** What carries over to a later world once its machines and log are accounted for. */
  lemma HistoryStable(platform: Platform, v: World, w: World)
    requires Ok(platform, v) && WorldExtends(v, w)
    ensures forall a, s | (a, s) in v.statements :: StatementOk(w, a, s)
    ensures forall s | s in v.signatures :: SignatureOk(w, s)
    ensures forall a, t | (a, t) in v.dials :: DialOk(platform, w, a, t)
    ensures forall i | 0 <= i < |v.log| :: EventOk(w, v.log[..i], v.log[i])
    ensures w.log == v.log ==> LogOk(w)
  {
    forall a, s | (a, s) in v.statements ensures StatementOk(w, a, s) { StatementStable(v, w, a, s); }
    forall s | s in v.signatures ensures SignatureOk(w, s) { SignatureStable(v, w, s); }
    forall a, t | (a, t) in v.dials ensures DialOk(platform, w, a, t) {
      assert DialOk(platform, v, a, t) && MachineExtends(v.machines[a], w.machines[a]);
    }
    forall i | 0 <= i < |v.log| ensures EventOk(w, v.log[..i], v.log[i]) { EventStable(v, w, v.log[..i], v.log[i]); }
  }

  lemma MachinesStable(platform: Platform, v: World, w: World)
    requires Ok(platform, v) && WorldExtends(v, w)
    ensures forall a | a in v.machines :: MachineOk(platform, w, a, v.machines[a])
  {
    forall a | a in v.machines ensures MachineOk(platform, w, a, v.machines[a]) {
      MachineStable(platform, v, w, a, v.machines[a]);
    }
  }

  /** A machine may write what grows from what it had, if the other end agrees with every entry. */
  lemma WriteKeeps(platform: Platform, w: World, me: Text, m: Machine)
    requires Ok(platform, w) && me in w.machines
    requires MachineExtends(w.machines[me], m) && MachineOk(platform, w, me, m)
    ensures var w' := w.(machines := w.machines[me := m]); Ok(platform, w') && WorldExtends(w, w')
  {
    var w' := w.(machines := w.machines[me := m]);
    ExtendsItself(w);
    assert WorldExtends(w, w');
    HistoryStable(platform, w, w');
    MachinesStable(platform, w, w');
    MachineStable(platform, w, w', me, m);
  }

  /** One more statement and one more signature, both in order, leave the world in order. */
  lemma SpokenKeeps(platform: Platform, w: World, w': World, me: Text, s: Statement, signed: Signed)
    requires Ok(platform, w) && w'.machines == w.machines && w'.dials == w.dials && w'.log == w.log
    requires w'.statements == w.statements + {(me, s)} && w'.signatures == w.signatures + {signed}
    requires StatementOk(w', me, s) && SignatureOk(w', signed)
    ensures Ok(platform, w') && WorldExtends(w, w')
  {
    SameMachinesExtend(w, w');
    HistoryStable(platform, w, w');
    MachinesStable(platform, w, w');
  }

  lemma ReleaseKeeps(platform: Platform, w: World, me: Text, s: Statement)
    requires Ok(platform, w) && me in w.machines && StatementOk(w, me, s)
    ensures var w' := Release(platform, w, me, s); Ok(platform, w') && WorldExtends(w, w')
  {
    var w' := Release(platform, w, me, s);
    var key := w.machines[me].identity.key;
    SameMachinesExtend(w, w');
    StatementStable(w, w', me, s);
    ReleasedIsStated(platform, w, w', me, s);
    SpokenKeeps(platform, w, w', me, s, Signed(key, Transcript(s), platform.sign(key, Transcript(s))));
  }

  /** A signature by a machine's key is by that machine: no other machine has the key. */
  lemma ReleasedIsStated(platform: Platform, w: World, w': World, me: Text, s: Statement)
    requires Ok(platform, w) && me in w.machines && w'.machines == w.machines && (me, s) in w'.statements
    ensures var key := w.machines[me].identity.key;
              SignatureOk(w', Signed(key, Transcript(s), platform.sign(key, Transcript(s))))
  {
    assert MachineOk(platform, w, me, w.machines[me]);
    forall a | a in w'.machines && w'.machines[a].identity.key == w.machines[me].identity.key
      ensures Stated(w', a, Transcript(s))
    {
      assert MachineOk(platform, w, a, w.machines[a]);
    }
  }

  lemma LogKeeps(platform: Platform, w: World, event: Event)
    requires Ok(platform, w) && EventOk(w, w.log, event) && (event.Returned? ==> event !in w.log)
    ensures Ok(platform, Log(w, event)) && WorldExtends(w, Log(w, event))
  {
    var w' := Log(w, event);
    SameMachinesExtend(w, w');
    HistoryStable(platform, w, w');
    MachinesStable(platform, w, w');
    EventStable(w, w', w.log, event);
    LogGrows(w.log, w', event);
  }

  lemma LogGrows(log: seq<Event>, w: World, event: Event)
    requires forall i | 0 <= i < |log| :: EventOk(w, log[..i], log[i])
    requires EventOk(w, log, event) && w.log == log + [event]
    ensures LogOk(w)
  {
    forall i | 0 <= i < |w.log| ensures EventOk(w, w.log[..i], w.log[i]) {
      assert w.log[..i] == log[..i];
      assert i == |log| ==> log[..i] == log;
    }
  }

  lemma DialKeeps(platform: Platform, w: World, me: Text, t: InitTerms)
    requires Ok(platform, w) && DialOk(platform, w, me, t)
    ensures var w' := w.(dials := w.dials + {(me, t)}); Ok(platform, w') && WorldExtends(w, w')
  {
    var w' := w.(dials := w.dials + {(me, t)});
    ExtendsItself(w);
    assert WorldExtends(w, w');
    HistoryStable(platform, w, w');
    MachinesStable(platform, w, w');
  }

  lemma ForgeKeeps(platform: Platform, w: World, signed: Signed)
    requires Ok(platform, w)
    ensures Ok(platform, ForgeStep(w, signed)) && WorldExtends(w, ForgeStep(w, signed))
  {
    var w' := ForgeStep(w, signed);
    ExtendsItself(w);
    assert WorldExtends(w, w');
    HistoryStable(platform, w, w');
    MachinesStable(platform, w, w');
  }
}
