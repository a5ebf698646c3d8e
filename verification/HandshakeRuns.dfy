/** The relay handshake between two machines that trust each other: it completes, and only in time. */
module HandshakeRuns {
  import opened Options
  import opened Utf16
  import opened JsonGrammar
  import opened Transcripts
  import opened Artifacts
  import opened PeerTrust
  import opened Enrollment
  import opened RelayHandshake
  import opened Federation
  import opened ArtifactTexts
  import opened FederationRuns

  /** Machine `a` dials `b`; the two tuning fields of the init frame travel outside the signature. */
  datatype Dialing = Dialing(
    a: Text, identityA: Identity, nonceA: Text, b: Text, identityB: Identity, nonceB: Text,
    connectionId: Text, ttl: Option<int>, start: int, stateDir: Value, heartbeat: Value)
  {
    function Seconds(): int {
      if ttl.Some? then ttl.value else 60
    }
  }

  /** A record under which a relay may run: active, of this key, over a loopback tunnel. */
  ghost predicate Usable(platform: Platform, trust: Trust, peer: Text, key: Text) {
    && peer in trust && trust[peer].state == Active && trust[peer].fingerprint == platform.fingerprintOf(key)
    && trust[peer].policy.Object? && PolicyIs(trust[peer].policy.fields, "loopbackSsh")
  }

  ghost predicate MayConnect(platform: Platform, w: World, d: Dialing) {
    && Lawful(platform) && d.a != d.b
    && IdentityOk(platform, d.a, d.identityA) && IdentityOk(platform, d.b, d.identityB)
    && IsBase64(d.identityA.spki) && IsBase64(d.identityB.spki)
    && IsUuid(d.connectionId) && IsNonce(d.nonceA) && IsNonce(d.nonceB) && 10 <= d.Seconds() <= 300
    && (d.stateDir == Null || d.stateDir.Str?) && ValidHeartbeat(d.heartbeat)
    && d.a in w.machines && w.machines[d.a].identity == d.identityA
    && d.b in w.machines && w.machines[d.b].identity == d.identityB
    && Usable(platform, w.machines[d.a].trust, d.b, d.identityB.key)
    && Usable(platform, w.machines[d.b].trust, d.a, d.identityA.key)
  }

  function InitOf(platform: Platform, w: World, d: Dialing): InitTerms
    requires d.a in w.machines && d.b in w.machines[d.a].trust
  {
    InitTerms(d.connectionId, d.a, platform.fingerprintOf(d.identityA.key), d.identityA.spki,
      w.machines[d.a].trust[d.b].policy, d.b, d.nonceA, platform.formatTime(d.start),
      platform.formatTime(d.start + d.Seconds() * 1000))
  }

  function InitFrameOf(platform: Platform, w: World, d: Dialing): InitFrame
    requires d.a in w.machines && d.b in w.machines[d.a].trust
  {
    var t := InitOf(platform, w, d);
    InitFrame(t, d.stateDir, d.heartbeat, platform.sign(d.identityA.key, Transcript(RelayInit(t))))
  }

  function AcceptOf(platform: Platform, w: World, d: Dialing): AcceptTerms
    requires d.a in w.machines && d.b in w.machines[d.a].trust
    requires d.b in w.machines && d.a in w.machines[d.b].trust
  {
    AcceptTerms(InitOf(platform, w, d), platform.fingerprintOf(d.identityB.key), d.identityB.spki,
      w.machines[d.b].trust[d.a].policy, d.nonceB)
  }

  function AcceptFrameOf(platform: Platform, w: World, d: Dialing): AcceptFrame
    requires d.a in w.machines && d.b in w.machines[d.a].trust
    requires d.b in w.machines && d.a in w.machines[d.b].trust
  {
    var t := AcceptOf(platform, w, d);
    AcceptFrame(t, platform.sign(d.identityB.key, Transcript(RelayAccept(t))))
  }

  /** The texts on the line, and when each is taken. */
  datatype Line = Line(init: Text, answeredAt: int, accept: Text, connectedAt: int)

  ghost predicate PoliciesStillHold(platform: Platform, w: World, d: Dialing, now: int)
    requires d.a in w.machines && d.b in w.machines[d.a].trust
    requires d.b in w.machines && d.a in w.machines[d.b].trust
  {
    && ValidPolicy(platform, w.machines[d.a].trust[d.b].policy, now)
    && ValidPolicy(platform, w.machines[d.b].trust[d.a].policy, now)
  }

  /** Both frames arrive in some spelling within the line bound, and are taken before the window closes. */
  ghost predicate Arrive(platform: Platform, w: World, d: Dialing, l: Line)
    requires MayConnect(platform, w, d)
  {
    && Spells(l.init, Object(InitFields(InitFrameOf(platform, w, d)))) && Utf8Length(l.init) <= 16_384
    && Spells(l.accept, Object(AcceptFields(AcceptFrameOf(platform, w, d)))) && Utf8Length(l.accept) <= 16_384
    && d.start - 30_000 <= l.answeredAt < d.start + d.Seconds() * 1000
    && l.connectedAt < d.start + d.Seconds() * 1000
    && PoliciesStillHold(platform, w, d, l.answeredAt) && PoliciesStillHold(platform, w, d, l.connectedAt)
  }

  lemma InitIsValid(platform: Platform, w: World, d: Dialing, now: int)
    requires MayConnect(platform, w, d) && PoliciesStillHold(platform, w, d, now)
    ensures ValidInitTerms(platform, InitOf(platform, w, d), now)
  {
    AuthorityOfKey(platform, d.identityA.key);
    AuthorityOfKey(platform, d.identityB.key);
    assert platform.formatTime(d.start) != [] && platform.formatTime(d.start + d.Seconds() * 1000) != [] by {
      assert NonBlank(platform.formatTime(d.start)) && NonBlank(platform.formatTime(d.start + d.Seconds() * 1000));
    }
  }

  lemma AcceptIsValid(platform: Platform, w: World, d: Dialing, now: int)
    requires MayConnect(platform, w, d) && PoliciesStillHold(platform, w, d, now)
    ensures ValidAcceptTerms(platform, AcceptOf(platform, w, d), now)
  {
    InitIsValid(platform, w, d, now);
  }

  // ---------------------------------------------------------------- step by step

  /** Nothing but signatures, dials and the log has changed. */
  ghost predicate SameMachines(w: World, w': World) {
    w'.machines == w.machines && w.signatures <= w'.signatures && w.dials <= w'.dials
  }

  lemma DialCompletes(platform: Platform, w: World, d: Dialing)
    requires MayConnect(platform, w, d)
    ensures var w' := Next(platform, w, DoDial(d.a, d.b, d.ttl, d.connectionId, d.nonceA, d.start));
            var f := InitFrameOf(platform, w, d);
            && SameMachines(w, w') && (d.a, f.init) in w'.dials
            && Signed(d.identityA.key, Transcript(RelayInit(f.init)), f.signature) in w'.signatures
  {
    var c := CallOf(platform, w, d.a, d.start);
    assert Dial(c, w.machines[d.a].trust, d.b, d.ttl, d.connectionId, d.nonceA) == Some(InitOf(platform, w, d));
  }

  lemma NextIsAnswer(platform: Platform, w: World, me: Text, raw: Text, nonce: Text, now: int)
    requires me in w.machines
    ensures Next(platform, w, DoAnswer(me, raw, nonce, now))
              == AnswerStep(platform, w, me, ReadInit(platform, raw, now), nonce, now)
  {
  }

  lemma NextIsConnect(platform: Platform, w: World, me: Text, pending: InitTerms, raw: Text, now: int)
    requires me in w.machines
    ensures Next(platform, w, DoConnect(me, pending, raw, now))
              == ConnectStep(platform, w, me, pending, ReadAccept(platform, raw, now), now)
  {
  }

  lemma AnswerWrites(platform: Platform, w: World, me: Text, f: InitFrame, nonce: Text, now: int, t: AcceptTerms,
      record: TrustRecord)
    requires me in w.machines
    requires AnswerInit(CallOf(platform, w, me, now), w.machines[me].trust, f, nonce) == Answer(t, record)
    ensures var w' := AnswerStep(platform, w, me, Some(f), nonce, now);
            var key := w.machines[me].identity.key;
            && SameMachines(w, w')
            && Signed(key, Transcript(RelayAccept(t)), platform.sign(key, Transcript(RelayAccept(t)))) in w'.signatures
  {
  }

  lemma InitIsAnswered(platform: Platform, w: World, d: Dialing, c: Call)
    requires MayConnect(platform, w, d) && c.platform == platform && c.identity == d.identityB
    requires d.start - 30_000 <= c.now < d.start + d.Seconds() * 1000
    requires var f := InitFrameOf(platform, w, d);
             Signed(d.identityA.key, Transcript(RelayInit(f.init)), f.signature) in c.signatures
    ensures AnswerInit(c, w.machines[d.b].trust, InitFrameOf(platform, w, d), d.nonceB)
              == Answer(AcceptOf(platform, w, d), w.machines[d.b].trust[d.a])
  {
  }

  lemma AnswerCompletes(platform: Platform, w: World, w1: World, d: Dialing, l: Line)
    requires MayConnect(platform, w, d) && Arrive(platform, w, d, l) && SameMachines(w, w1)
    requires var f := InitFrameOf(platform, w, d);
             Signed(d.identityA.key, Transcript(RelayInit(f.init)), f.signature) in w1.signatures
    ensures var w' := Next(platform, w1, DoAnswer(d.b, l.init, d.nonceB, l.answeredAt));
            var f := AcceptFrameOf(platform, w, d);
            && SameMachines(w1, w')
            && Signed(d.identityB.key, Transcript(RelayAccept(f.terms)), f.signature) in w'.signatures
  {
    InitIsValid(platform, w, d, l.answeredAt);
    InitReadsBack(platform, InitFrameOf(platform, w, d), l.init, l.answeredAt);
    InitIsAnswered(platform, w, d, CallOf(platform, w1, d.b, l.answeredAt));
    NextIsAnswer(platform, w1, d.b, l.init, d.nonceB, l.answeredAt);
    AnswerWrites(platform, w1, d.b, InitFrameOf(platform, w, d), d.nonceB, l.answeredAt, AcceptOf(platform, w, d),
        w.machines[d.b].trust[d.a]);
  }

  lemma AcceptIsTaken(platform: Platform, w: World, d: Dialing, c: Call)
    requires MayConnect(platform, w, d) && c.platform == platform && c.identity == d.identityA
    requires c.now < d.start + d.Seconds() * 1000
    requires var f := AcceptFrameOf(platform, w, d);
             Signed(d.identityB.key, Transcript(RelayAccept(f.terms)), f.signature) in c.signatures
    ensures RefuseAccept(c, w.machines[d.a].trust, Some(InitOf(platform, w, d)), AcceptFrameOf(platform, w, d)).None?
  {
  }

  lemma ConnectCompletes(platform: Platform, w: World, w2: World, d: Dialing, l: Line)
    requires MayConnect(platform, w, d) && Arrive(platform, w, d, l) && SameMachines(w, w2)
    requires (d.a, InitOf(platform, w, d)) in w2.dials
    requires var f := AcceptFrameOf(platform, w, d);
             Signed(d.identityB.key, Transcript(RelayAccept(f.terms)), f.signature) in w2.signatures
    ensures Next(platform, w2, DoConnect(d.a, InitOf(platform, w, d), l.accept, l.connectedAt)).log
              == w2.log + [Connected(d.a, AcceptOf(platform, w, d))]
  {
    AcceptIsValid(platform, w, d, l.connectedAt);
    AcceptReadsBack(platform, AcceptFrameOf(platform, w, d), l.accept, l.connectedAt);
    AcceptIsTaken(platform, w, d, CallOf(platform, w2, d.a, l.connectedAt));
    NextIsConnect(platform, w2, d.a, InitOf(platform, w, d), l.accept, l.connectedAt);
  }

  /**
   The handshake completes. In whatever world two machines hold usable records of each other: if the init
   frame and the accept frame arrive in any spelling, answered no more than thirty seconds before it was
   dialed and both taken before the window closes, the run ends with the dialer connected over exactly
   the terms that were dialed and answered.
   */
  lemma HandshakeCompletes(platform: Platform, w: World, d: Dialing, l: Line)
    requires MayConnect(platform, w, d) && Arrive(platform, w, d, l)
    ensures var steps := [ DoDial(d.a, d.b, d.ttl, d.connectionId, d.nonceA, d.start),
                           DoAnswer(d.b, l.init, d.nonceB, l.answeredAt),
                           DoConnect(d.a, InitOf(platform, w, d), l.accept, l.connectedAt)];
            Connected(d.a, AcceptOf(platform, w, d)) in Run(platform, w, steps).log
  {
    var dial := DoDial(d.a, d.b, d.ttl, d.connectionId, d.nonceA, d.start);
    var answer := DoAnswer(d.b, l.init, d.nonceB, l.answeredAt);
    var connect := DoConnect(d.a, InitOf(platform, w, d), l.accept, l.connectedAt);
    var w1 := Next(platform, w, dial);
    var w2 := Next(platform, w1, answer);
    DialCompletes(platform, w, d);
    AnswerCompletes(platform, w, w1, d, l);
    ConnectCompletes(platform, w, w2, d, l);
    RunOfThree(platform, w, dial, answer, connect);
  }

  // ---------------------------------------------------------------- outside the window

  /** Whatever the world: an accept is only signed for an init that is not expired nor from the future. */
  lemma OnlyTimelyAnswers(platform: Platform, w: World, me: Text, raw: Text, nonce: Text, now: int)
    requires Next(platform, w, DoAnswer(me, raw, nonce, now)) != w
    ensures var read := ReadInit(platform, raw, now);
            read.Some? && Timely(platform, read.value.init.issuedAt, read.value.init.expiresAt, 300_000, now)
  {
    var read := ReadInit(platform, raw, now);
    NextIsAnswer(platform, w, me, raw, nonce, now);
    if read.Some? { AnsweredInTime(platform, CallOf(platform, w, me, now), w.machines[me].trust, read.value, nonce); }
  }

  lemma AnsweredInTime(platform: Platform, c: Call, trust: Trust, f: InitFrame, nonce: Text)
    requires c.platform == platform && ValidInitTerms(platform, f.init, c.now)
    ensures AnswerInit(c, trust, f, nonce).Answer? ==>
              Timely(platform, f.init.issuedAt, f.init.expiresAt, 300_000, c.now)
  {
  }

  /** And only an accept that is not expired connects. */
  lemma OnlyTimelyConnections(platform: Platform, w: World, me: Text, pending: InitTerms, raw: Text, now: int)
    requires Next(platform, w, DoConnect(me, pending, raw, now)) != w
    ensures var read := ReadAccept(platform, raw, now);
            && read.Some? && platform.parseTime(read.value.terms.init.expiresAt).Some?
            && now < platform.parseTime(read.value.terms.init.expiresAt).value
  {
    NextIsConnect(platform, w, me, pending, raw, now);
  }
}
