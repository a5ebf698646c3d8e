/**
 Any number of honest machines that enroll and dial each other over a network that an adversary
 owns.

 Every raw text that reaches a machine is chosen by the adversary, so artifacts can be replayed,
 dropped, reordered and altered at will. Signatures are ideal: one verifies only if it was
 released by the machine that owns the key, or if the key belongs to no honest machine. In particular
 nobody turns a released signature into a second one over the same transcript. A stage may crash
 between its durable writes; its artifact is then never seen by anyone.

 The stage calls of one machine are serialized: each reads, checks and writes the ledger and the trust
 record without another call of that machine in between. The source does not lock these files, so
 everything said about one machine over time (no stage twice, nothing moves back) rests on this.
 */
module Federation {
  import opened Options
  import opened Utf16
  import opened JsonGrammar
  import opened Transcripts
  import opened Artifacts
  import opened PeerTrust
  import opened Enrollment
  import opened RelayHandshake
  import JsonTheorems

  datatype Machine = Machine(identity: Identity, trust: Trust, ledger: Ledger)

  datatype Event =
    /** `me` wrote the record of `peer` as proven by enrollment `id`: at confirm or at finalize. */
    | Activated(me: Text, peer: Text, id: Text, role: Role)
    /** A stage call on `me` returned: offer, challenge, accept, confirm, or finalize when absent. */
    | Returned(me: Text, stage: Option<Stage>, id: Text)
    /** `me` signed an accept while it held this record for the initiator. */
    | AcceptSigned(me: Text, terms: AcceptTerms, record: TrustRecord)
    /** `me`, which dialed, took this accept and is connected. */
    | Connected(me: Text, terms: AcceptTerms)

  /**
   The machines and what the network knows. `statements`, `dials` and `log` are history: who
   released a signature on what, who offered which handshake, and what happened in which order.
   */
  datatype World = World(
    machines: map<Text, Machine>,
    signatures: set<Signed>,
    statements: set<(Text, Statement)>,
    dials: set<(Text, InitTerms)>,
    log: seq<Event>)

  datatype Crash = NoCrash | AfterTrust | AfterLedger

  datatype Step =
    | DoOffer(me: Text, peer: Text, policy: Value, ttl: Option<int>, nonce: Text, id: Text, now: int, crash: Crash)
    | DoChallenge(me: Text, raw: Text, policy: Value, nonce: Text, now: int, crash: Crash)
    | DoAccept(me: Text, raw: Text, now: int, crash: Crash)
    | DoConfirm(me: Text, raw: Text, now: int, crash: Crash)
    | DoFinalize(me: Text, raw: Text, now: int, crash: Crash)
    | DoPrepare(me: Text, authority: Text, key: Text, policy: Value, now: int)
    | DoRevoke(me: Text, authority: Text, reason: Text)
    | DoDial(me: Text, peer: Text, ttl: Option<int>, connectionId: Text, nonce: Text, now: int)
    | DoAnswer(me: Text, raw: Text, nonce: Text, now: int)
    | DoConnect(me: Text, pending: InitTerms, raw: Text, now: int)
    | DoCapability(me: Text, body: Value)
    | Forge(signed: Signed)

  // ---------------------------------------------------------------- one step

  function CallOf(platform: Platform, w: World, me: Text, now: int): Call
    requires me in w.machines
  {
    Call(platform, w.machines[me].identity, now, w.signatures)
  }

  /** What survives of a stage call on disk. */
  function Durable(m: Machine, r: StageResult, crash: Crash): Machine {
    match r
    case Refused => m
    case Stalled(trust) => m.(trust := trust)
    case Completed(trust, ledger, _) =>
        if crash == AfterTrust then m.(trust := trust) else m.(trust := trust, ledger := ledger)
  }

  function Wrote(w: World, me: Text, r: StageResult, crash: Crash): World
    requires me in w.machines
  {
    w.(machines := w.machines[me := Durable(w.machines[me], r, crash)])
  }

  function Release(platform: Platform, w: World, me: Text, s: Statement): World
    requires me in w.machines
  {
    var key := w.machines[me].identity.key;
    w.(signatures := w.signatures + {Signed(key, Transcript(s), platform.sign(key, Transcript(s)))},
       statements := w.statements + {(me, s)})
  }

  function Log(w: World, e: Event): World {
    w.(log := w.log + [e])
  }

  function LogProof(w: World, proof: Option<Event>): World {
    if proof.Some? then Log(w, proof.value) else w
  }

  function Emit(platform: Platform, w: World, me: Text, stage: Option<Stage>, artifact: Option<Artifact>): World
    requires me in w.machines
  {
    if stage.Some? && artifact.Some? then Release(platform, w, me, Enrollment(stage.value, artifact.value.terms)) else w
  }

  /**
   The stage writes; a stage that raises trust to active leaves `proof` in the log; and unless it
   failed or crashed it returns, which releases its artifact.
   */
  function Return(platform: Platform, w: World, me: Text, r: StageResult, crash: Crash, proof: Option<Event>,
      stage: Option<Stage>, id: Text): World
    requires me in w.machines
  {
    var w' := LogProof(Wrote(w, me, r, crash), if r.Refused? then None else proof);
    if !r.Completed? || crash != NoCrash then w'
        else Log(Emit(platform, w', me, stage, r.artifact), Returned(me, stage, id))
  }

  function OfferStep(platform: Platform, w: World, me: Text, peer: Text, policy: Value, ttl: Option<int>, nonce: Text,
      id: Text, now: int, crash: Crash): World
    requires me in w.machines
  {
    var c := CallOf(platform, w, me, now);
    var m := w.machines[me];
    Return(platform, w, me, OfferStage(c, m.trust, m.ledger, peer, policy, ttl, nonce, id), crash, None, Some(Offer),
        id)
  }

  function ChallengeStep(platform: Platform, w: World, me: Text, read: Option<Artifact>, policy: Value, nonce: Text,
      now: int, crash: Crash): World
    requires me in w.machines
  {
    match read
    case None => w
    case Some(offer) =>
      var c := CallOf(platform, w, me, now);
      var m := w.machines[me];
      Return(platform, w, me, ChallengeStage(c, m.trust, m.ledger, offer, policy, nonce), crash, None,
          Some(Challenge), offer.terms.enrollmentId)
  }

  function AcceptStep(platform: Platform, w: World, me: Text, read: Option<Artifact>, now: int, crash: Crash): World
    requires me in w.machines
  {
    match read
    case None => w
    case Some(challenge) =>
      var m := w.machines[me];
      Return(platform, w, me, AcceptStage(CallOf(platform, w, me, now), m.trust, m.ledger, challenge), crash, None,
          Some(Accept), challenge.terms.enrollmentId)
  }

  function ConfirmStep(platform: Platform, w: World, me: Text, read: Option<Artifact>, now: int, crash: Crash): World
    requires me in w.machines
  {
    match read
    case None => w
    case Some(accept) =>
      var m := w.machines[me];
      Return(platform, w, me, ConfirmStage(CallOf(platform, w, me, now), m.trust, m.ledger, accept), crash,
             Some(Activated(me, accept.terms.origin, accept.terms.enrollmentId, Responder)), Some(Confirm),
                 accept.terms.enrollmentId)
  }

  function FinalizeStep(platform: Platform, w: World, me: Text, read: Option<Artifact>, now: int, crash: Crash): World
    requires me in w.machines
  {
    match read
    case None => w
    case Some(confirm) =>
      var m := w.machines[me];
      Return(platform, w, me, FinalizeStage(CallOf(platform, w, me, now), m.trust, m.ledger, confirm), crash,
             Some(Activated(me, confirm.terms.destination, confirm.terms.enrollmentId, Initiator)), None,
                 confirm.terms.enrollmentId)
  }

  function SetTrust(w: World, me: Text, trust: Trust): World
    requires me in w.machines
  {
    w.(machines := w.machines[me := w.machines[me].(trust := trust)])
  }

  function PrepareStep(platform: Platform, w: World, me: Text, authority: Text, key: Text, policy: Value,
      now: int): World
    requires me in w.machines
  {
    var trust := w.machines[me].trust;
    if AdvanceGuard(platform, trust, authority, key, policy, now)
        then SetTrust(w, me, Prepared(platform, trust, authority, key, policy)) else w
  }

  function RevokeStep(w: World, me: Text, authority: Text, reason: Text): World
    requires me in w.machines
  {
    var trust := w.machines[me].trust;
    if RevokeGuard(trust, authority, reason) then SetTrust(w, me, RevokedIn(trust, authority, reason)) else w
  }

  function DialStep(platform: Platform, w: World, me: Text, peer: Text, ttl: Option<int>, connectionId: Text,
      nonce: Text, now: int): World
    requires me in w.machines
  {
    match Dial(CallOf(platform, w, me, now), w.machines[me].trust, peer, ttl, connectionId, nonce)
    case None => w
    case Some(t) => Release(platform, w.(dials := w.dials + {(me, t)}), me, RelayInit(t))
  }

  function AnswerStep(platform: Platform, w: World, me: Text, read: Option<InitFrame>, nonce: Text, now: int): World
    requires me in w.machines
  {
    match read
    case None => w
    case Some(frame) =>
      match AnswerInit(CallOf(platform, w, me, now), w.machines[me].trust, frame, nonce)
      case Reject(_) => w
      case Answer(terms, record) => Release(platform, Log(w, AcceptSigned(me, terms, record)), me, RelayAccept(terms))
  }

  function ConnectStep(platform: Platform, w: World, me: Text, pending: InitTerms, read: Option<AcceptFrame>,
      now: int): World
    requires me in w.machines
  {
    match read
    case None => w
    case Some(frame) =>
      if (me, pending) in w.dials
          && RefuseAccept(CallOf(platform, w, me, now), w.machines[me].trust, Some(pending), frame).None?
      then Log(w, Connected(me, frame.terms)) else w
  }

  function CapabilityStep(platform: Platform, w: World, me: Text, body: Value): World
    requires me in w.machines
  {
    if JsonTheorems.Printable(body) then Release(platform, w, me, TerminalCapability(body)) else w
  }

  predicate HonestKey(w: World, key: Text) {
    exists a | a in w.machines :: w.machines[a].identity.key == key
  }

  function ForgeStep(w: World, signed: Signed): World {
    if HonestKey(w, signed.key) then w else w.(signatures := w.signatures + {signed})
  }

  predicate Enrolls(step: Step) {
    step.DoOffer? || step.DoChallenge? || step.DoAccept? || step.DoConfirm? || step.DoFinalize?
  }

  function EnrollmentNext(platform: Platform, w: World, step: Step): World
    requires Enrolls(step) && step.me in w.machines
  {
    match step
    case DoOffer(me, peer, policy, ttl, nonce, id, now, crash) =>
        OfferStep(platform, w, me, peer, policy, ttl, nonce, id, now, crash)
    case DoChallenge(me, raw, policy, nonce, now, crash) =>
        ChallengeStep(platform, w, me, ReadArtifact(platform, Offer, raw, now), policy, nonce, now, crash)
    case DoAccept(me, raw, now, crash) =>
        AcceptStep(platform, w, me, ReadArtifact(platform, Challenge, raw, now), now, crash)
    case DoConfirm(me, raw, now, crash) =>
        ConfirmStep(platform, w, me, ReadArtifact(platform, Accept, raw, now), now, crash)
    case DoFinalize(me, raw, now, crash) =>
        FinalizeStep(platform, w, me, ReadArtifact(platform, Confirm, raw, now), now, crash)
  }

  predicate Handshakes(step: Step) {
    step.DoDial? || step.DoAnswer? || step.DoConnect?
  }

  function HandshakeNext(platform: Platform, w: World, step: Step): World
    requires Handshakes(step) && step.me in w.machines
  {
    match step
    case DoDial(me, peer, ttl, connectionId, nonce, now) =>
        DialStep(platform, w, me, peer, ttl, connectionId, nonce, now)
    case DoAnswer(me, raw, nonce, now) => AnswerStep(platform, w, me, ReadInit(platform, raw, now), nonce, now)
    case DoConnect(me, pending, raw, now) => ConnectStep(platform, w, me, pending, ReadAccept(platform, raw, now), now)
  }

  function Next(platform: Platform, w: World, step: Step): World {
    if step.Forge? then ForgeStep(w, step.signed)
    else if step.me !in w.machines then w
    else if Enrolls(step) then EnrollmentNext(platform, w, step)
    else if Handshakes(step) then HandshakeNext(platform, w, step)
    else
      match step
      case DoPrepare(me, authority, key, policy, now) => PrepareStep(platform, w, me, authority, key, policy, now)
      case DoRevoke(me, authority, reason) => RevokeStep(w, me, authority, reason)
      case DoCapability(me, body) => CapabilityStep(platform, w, me, body)
  }

  function Run(platform: Platform, w: World, steps: seq<Step>): World {
    if steps == [] then w else Next(platform, Run(platform, w, steps[..|steps| - 1]), steps[|steps| - 1])
  }

  // ---------------------------------------------------------------- where a run may start

  ghost predicate IdentityOk(platform: Platform, authority: Text, identity: Identity) {
    platform.AuthorityFor(identity.key) == authority && platform.derOf(identity.spki) == Some(identity.key)
  }

  /** Fresh machines, each filed under the authority of its key; nothing signed yet. */
  ghost predicate Fresh(platform: Platform, w: World) {
    && (forall a | a in w.machines ::
       IdentityOk(platform, a, w.machines[a].identity) && w.machines[a].trust == map[] && w.machines[a].ledger == map[])
    && (forall s | s in w.signatures :: !HonestKey(w, s.key))
    && w.statements == {} && w.dials == {} && w.log == []
  }
}
