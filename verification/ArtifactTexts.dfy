/** The JSON objects that artifacts and handshake frames are sent as: every spelling of one is read back as itself. */
module ArtifactTexts {
  import opened Options
  import opened Utf16
  import opened JsonGrammar
  import JsonParser
  import JsonTheorems
  import opened Transcripts
  import opened Artifacts
  import opened RelayHandshake

  /** `raw` is JSON for `v`, with whatever whitespace and escapes. */
  ghost predicate Spells(raw: Text, v: Value) {
    exists d: Document :: d.Wf() && d.Spelling() == raw && TreeValue(d.tree) == v
  }

  // ---------------------------------------------------------------- objects with given keys

  /** Plain at both ends; two such names are told apart by their length and their ends. */
  predicate Plain(name: string) {
    name != "" && name[0] as int < 0x80 && name[|name| - 1] as int < 0x80
  }

  predicate Apart(s: string, t: string) {
    |s| != |t| || (s != "" && (s[0] != t[0] || s[|s| - 1] != t[|t| - 1]))
  }

  predicate AllPlain(names: seq<string>) {
    forall i | 0 <= i < |names| :: Plain(names[i])
  }

  predicate PlainNames(names: seq<string>) {
    && AllPlain(names)
    && forall i, j | 0 <= i < j < |names| :: Apart(names[i], names[j])
  }

  predicate Keyed(fields: seq<Field>, names: seq<string>) {
    |fields| == |names| && forall i | 0 <= i < |names| :: fields[i].key == Ascii(names[i])
  }

  lemma ApartInAscii(s: string, t: string)
    requires Plain(s) && Plain(t) && Apart(s, t)
    ensures Ascii(s) != Ascii(t)
  {
    if |s| == |t| {
      var k := if s[0] != t[0] then 0 else |s| - 1;
      assert Ascii(s)[k] == s[k] as int && Ascii(t)[k] == t[k] as int;
    }
  }

  lemma {:induction false} FirstField(fields: seq<Field>, i: nat, name: string)
    requires i < |fields| && fields[i].key == Ascii(name) && forall j | 0 <= j < i :: fields[j].key != Ascii(name)
    ensures Get(fields, name) == Some(fields[i].value)
  {
    if i > 0 { FirstField(fields[1..], i - 1, name); }
  }

  /** The field of each name is the one in its place. */
  lemma FieldInPlace(fields: seq<Field>, names: seq<string>, i: nat)
    requires Keyed(fields, names) && PlainNames(names) && i < |names|
    ensures Get(fields, names[i]) == Some(fields[i].value)
  {
    forall j | 0 <= j < i ensures fields[j].key != Ascii(names[i]) {
      ApartInAscii(names[j], names[i]);
    }
    FirstField(fields, i, names[i]);
  }

  lemma KeyedIsExact(fields: seq<Field>, names: seq<string>)
    requires Keyed(fields, names)
    ensures ExactKeys(fields, names)
  {
    assert forall i | 0 <= i < |fields| :: names[i] == names[i] && fields[i].key == Ascii(names[i]);
    assert forall j | 0 <= j < |names| :: fields[j].key == Ascii(names[j]);
  }

  lemma {:induction false} UniqueFields(earlier: seq<Field>, fields: seq<Field>)
    requires forall i | 0 <= i < |fields| :: UniqueKeys(fields[i].value)
    requires forall i, j | 0 <= i < j < |fields| :: fields[i].key != fields[j].key
    requires forall e, i | e in earlier && 0 <= i < |fields| :: e.key != fields[i].key
    ensures FieldsUnique(earlier, fields)
    decreases |fields|
  {
    if fields != [] { UniqueFields(earlier + [fields[0]], fields[1..]); }
  }

  lemma KeyedIsUnique(fields: seq<Field>, names: seq<string>)
    requires Keyed(fields, names) && PlainNames(names)
    requires forall i | 0 <= i < |fields| :: UniqueKeys(fields[i].value)
    ensures UniqueKeys(Object(fields))
  {
    forall i, j | 0 <= i < j < |fields| ensures fields[i].key != fields[j].key {
      ApartInAscii(names[i], names[j]);
    }
    UniqueFields([], fields);
  }

  /** Whatever spells an object with unique keys is parsed to it. */
  lemma SpelledIsParsed(raw: Text, v: Value)
    requires Spells(raw, v) && UniqueKeys(v)
    ensures JsonParser.ParseDocument(raw, true) == JsonParser.Accepted(v)
  {
    JsonTheorems.StrictParserIsTheGrammar(raw, v);
  }

  // ---------------------------------------------------------------- artifacts

  function OfferFields(a: Artifact): seq<Field> {
    var t := a.terms;
    [ Named("kind", Str(Ascii(ArtifactKind(Offer)))), Named("version", Number(Decimal(t.version))),
      Named("enrollmentId", Str(t.enrollmentId)), Named("origin", Str(t.origin)),
      Named("destination", Str(t.destination)), Named("originPublicKeySpkiB64", Str(t.originKey)),
      Named("originFingerprint", Str(t.originFingerprint)), Named("originTransportPolicy", t.originPolicy),
      Named("originNonce", Str(t.originNonce)), Named("issuedAt", Str(t.issuedAt)),
      Named("expiresAt", Str(t.expiresAt)), Named("signature", Str(a.signature))]
  }

  function FullFields(stage: Stage, a: Artifact): seq<Field> {
    var t := a.terms;
    [ Named("kind", Str(Ascii(ArtifactKind(stage)))), Named("version", Number(Decimal(t.version))),
      Named("enrollmentId", Str(t.enrollmentId)), Named("origin", Str(t.origin)),
      Named("destination", Str(t.destination)), Named("originPublicKeySpkiB64", Str(t.originKey)),
      Named("originFingerprint", Str(t.originFingerprint)), Named("originTransportPolicy", t.originPolicy),
      Named("destinationPublicKeySpkiB64", TextOrNull(t.destinationKey)),
      Named("destinationFingerprint", TextOrNull(t.destinationFingerprint)),
      Named("destinationTransportPolicy", ValueOrNull(t.destinationPolicy)),
      Named("originNonce", Str(t.originNonce)), Named("destinationNonce", TextOrNull(t.destinationNonce)),
      Named("issuedAt", Str(t.issuedAt)), Named("expiresAt", Str(t.expiresAt)), Named("signature", Str(a.signature))]
  }

  /** The object that a stage hands to its peer. */
  function ArtifactValue(stage: Stage, a: Artifact): Value {
    Object(if stage == Offer then OfferFields(a) else FullFields(stage, a))
  }

  predicate ApartFrom(names: seq<string>, from: nat, to: nat) {
    forall i, j | from <= i < to && i < j < |names| :: Apart(names[i], names[j])
  }

  lemma ApartInParts(names: seq<string>, k: nat, l: nat)
    requires AllPlain(names) && ApartFrom(names, 0, k) && ApartFrom(names, k, l) && ApartFrom(names, l, |names|)
    ensures PlainNames(names)
  {
  }

  lemma KeysEndPlain()
    ensures AllPlain(OFFER_KEYS) && AllPlain(FULL_KEYS)
  {
  }

  lemma OfferKeysArePlain()
    ensures PlainNames(OFFER_KEYS)
  {
    KeysEndPlain();
    assert ApartFrom(OFFER_KEYS, 0, 3);
    OfferKeysApart();
    ApartInParts(OFFER_KEYS, 3, 6);
  }

  lemma OfferKeysApart()
    ensures ApartFrom(OFFER_KEYS, 3, 6) && ApartFrom(OFFER_KEYS, 6, |OFFER_KEYS|)
  {
  }

  lemma FullKeysArePlain()
    ensures PlainNames(FULL_KEYS)
  {
    KeysEndPlain();
    FullKeysApartFirst();
    FullKeysApartNext();
    FullKeysApartLast();
    ApartInParts(FULL_KEYS, 4, 8);
  }

  lemma FullKeysApartFirst()
    ensures ApartFrom(FULL_KEYS, 0, 4)
  {
  }

  lemma FullKeysApartNext()
    ensures ApartFrom(FULL_KEYS, 4, 8)
  {
  }

  lemma FullKeysApartLast()
    ensures ApartFrom(FULL_KEYS, 8, |FULL_KEYS|)
  {
  }

  // ---------------------------------------------------------------- artifacts are read back

  /** The fields are in place, so each is found under its name. */
  ghost predicate InPlace(fields: seq<Field>, names: seq<string>) {
    Keyed(fields, names) && forall i | 0 <= i < |names| :: Get(fields, names[i]) == Some(fields[i].value)
  }

  lemma KeyedIsInPlace(fields: seq<Field>, names: seq<string>)
    requires Keyed(fields, names) && PlainNames(names)
    ensures InPlace(fields, names)
  {
    forall i | 0 <= i < |names| ensures Get(fields, names[i]) == Some(fields[i].value) {
      FieldInPlace(fields, names, i);
    }
  }

  lemma OfferFieldsInPlace(a: Artifact)
    ensures InPlace(OfferFields(a), OFFER_KEYS)
  {
    OfferKeysArePlain();
    assert Keyed(OfferFields(a), OFFER_KEYS);
    KeyedIsInPlace(OfferFields(a), OFFER_KEYS);
  }

  lemma FullFieldsInPlace(stage: Stage, a: Artifact)
    ensures InPlace(FullFields(stage, a), FULL_KEYS)
  {
    FullKeysArePlain();
    assert Keyed(FullFields(stage, a), FULL_KEYS);
    KeyedIsInPlace(FullFields(stage, a), FULL_KEYS);
  }

  predicate Complete(stage: Stage, t: Terms) {
    && t.version == FEDERATION_PROTOCOL_VERSION
    && (stage == Offer ==>
          t.destinationKey.None? && t.destinationFingerprint.None? && t.destinationPolicy.None?
          && t.destinationNonce.None?)
    && (stage != Offer ==>
          t.destinationKey.Some? && t.destinationFingerprint.Some? && t.destinationPolicy.Some?
          && t.destinationNonce.Some?)
  }

  lemma OfferHead(a: Artifact, fields: seq<Field>)
    requires fields == OfferFields(a) && InPlace(fields, OFFER_KEYS)
    ensures Get(fields, "kind") == Some(fields[0].value) && Get(fields, "version") == Some(fields[1].value)
    ensures GetText(fields, "enrollmentId") == a.terms.enrollmentId && GetText(fields, "origin") == a.terms.origin
    ensures GetText(fields, "destination") == a.terms.destination
  {
    assert OFFER_KEYS[0] == "kind" && OFFER_KEYS[1] == "version" && OFFER_KEYS[2] == "enrollmentId";
    assert OFFER_KEYS[3] == "origin" && OFFER_KEYS[4] == "destination";
  }

  lemma OfferOrigin(a: Artifact, fields: seq<Field>)
    requires fields == OfferFields(a) && InPlace(fields, OFFER_KEYS)
    ensures GetText(fields, "originPublicKeySpkiB64") == a.terms.originKey
    ensures GetText(fields, "originFingerprint") == a.terms.originFingerprint
    ensures Get(fields, "originTransportPolicy") == Some(a.terms.originPolicy)
    ensures GetText(fields, "originNonce") == a.terms.originNonce
  {
    assert OFFER_KEYS[5] == "originPublicKeySpkiB64" && OFFER_KEYS[6] == "originFingerprint";
    assert OFFER_KEYS[7] == "originTransportPolicy" && OFFER_KEYS[8] == "originNonce";
  }

  lemma OfferRest(a: Artifact, fields: seq<Field>)
    requires fields == OfferFields(a) && InPlace(fields, OFFER_KEYS)
    ensures GetText(fields, "issuedAt") == a.terms.issuedAt && GetText(fields, "expiresAt") == a.terms.expiresAt
    ensures GetText(fields, "signature") == a.signature
  {
    assert OFFER_KEYS[9] == "issuedAt" && OFFER_KEYS[10] == "expiresAt" && OFFER_KEYS[11] == "signature";
  }

  lemma OfferReadsBack(a: Artifact, fields: seq<Field>)
    requires Complete(Offer, a.terms) && fields == OfferFields(a) && InPlace(fields, OFFER_KEYS)
    ensures FieldsArtifact(Offer, fields) == a
  {
    OfferHead(a, fields);
    OfferOrigin(a, fields);
    OfferRest(a, fields);
  }

  lemma FullHead(stage: Stage, a: Artifact, fields: seq<Field>)
    requires fields == FullFields(stage, a) && InPlace(fields, FULL_KEYS)
    ensures Get(fields, "kind") == Some(fields[0].value) && Get(fields, "version") == Some(fields[1].value)
    ensures GetText(fields, "enrollmentId") == a.terms.enrollmentId && GetText(fields, "origin") == a.terms.origin
    ensures GetText(fields, "destination") == a.terms.destination
  {
    assert FULL_KEYS[0] == "kind" && FULL_KEYS[1] == "version" && FULL_KEYS[2] == "enrollmentId";
    assert FULL_KEYS[3] == "origin" && FULL_KEYS[4] == "destination";
  }

  lemma FullOrigin(stage: Stage, a: Artifact, fields: seq<Field>)
    requires fields == FullFields(stage, a) && InPlace(fields, FULL_KEYS)
    ensures GetText(fields, "originPublicKeySpkiB64") == a.terms.originKey
    ensures GetText(fields, "originFingerprint") == a.terms.originFingerprint
    ensures Get(fields, "originTransportPolicy") == Some(a.terms.originPolicy)
    ensures GetText(fields, "originNonce") == a.terms.originNonce
  {
    assert FULL_KEYS[5] == "originPublicKeySpkiB64" && FULL_KEYS[6] == "originFingerprint";
    assert FULL_KEYS[7] == "originTransportPolicy" && FULL_KEYS[11] == "originNonce";
  }

  lemma FullDestination(stage: Stage, a: Artifact, fields: seq<Field>)
    requires stage != Offer && Complete(stage, a.terms) && fields == FullFields(stage, a) && InPlace(fields, FULL_KEYS)
    ensures GetText(fields, "destinationPublicKeySpkiB64") == a.terms.destinationKey.value
    ensures GetText(fields, "destinationFingerprint") == a.terms.destinationFingerprint.value
    ensures Get(fields, "destinationTransportPolicy") == Some(a.terms.destinationPolicy.value)
    ensures GetText(fields, "destinationNonce") == a.terms.destinationNonce.value
  {
    assert FULL_KEYS[8] == "destinationPublicKeySpkiB64" && FULL_KEYS[9] == "destinationFingerprint";
    assert FULL_KEYS[10] == "destinationTransportPolicy" && FULL_KEYS[12] == "destinationNonce";
  }

  lemma FullRest(stage: Stage, a: Artifact, fields: seq<Field>)
    requires fields == FullFields(stage, a) && InPlace(fields, FULL_KEYS)
    ensures GetText(fields, "issuedAt") == a.terms.issuedAt && GetText(fields, "expiresAt") == a.terms.expiresAt
    ensures GetText(fields, "signature") == a.signature
  {
    assert FULL_KEYS[13] == "issuedAt" && FULL_KEYS[14] == "expiresAt";
    assert FULL_KEYS[15] == "signature";
  }

  lemma FullReadsBack(stage: Stage, a: Artifact, fields: seq<Field>)
    requires stage != Offer && Complete(stage, a.terms) && fields == FullFields(stage, a) && InPlace(fields, FULL_KEYS)
    ensures FieldsArtifact(stage, fields) == a
  {
    FullHead(stage, a, fields);
    FullOrigin(stage, a, fields);
    FullDestination(stage, a, fields);
    FullRest(stage, a, fields);
  }

  lemma PolicyValuesAreUnique(stage: Stage, a: Artifact, fields: seq<Field>)
    requires fields == if stage == Offer then OfferFields(a) else FullFields(stage, a)
    requires UniqueKeys(a.terms.originPolicy)
    requires a.terms.destinationPolicy.Some? ==> UniqueKeys(a.terms.destinationPolicy.value)
    ensures forall i | 0 <= i < |fields| :: UniqueKeys(fields[i].value)
  {
  }

  /** An object that holds exactly the fields of `a`. */
  ghost predicate Carries(stage: Stage, a: Artifact, fields: seq<Field>) {
    && ExactKeys(fields, if stage == Offer then OFFER_KEYS else FULL_KEYS)
    && Get(fields, "kind") == Some(Str(Ascii(ArtifactKind(stage))))
    && Get(fields, "version") == Some(Number(Decimal(a.terms.version)))
    && FieldsArtifact(stage, fields) == a && UniqueKeys(Object(fields))
  }

  lemma OfferHolds(a: Artifact)
    requires Complete(Offer, a.terms) && UniqueKeys(a.terms.originPolicy)
    ensures Carries(Offer, a, OfferFields(a))
  {
    var fields := OfferFields(a);
    OfferKeysArePlain();
    OfferFieldsInPlace(a);
    OfferHead(a, fields);
    OfferReadsBack(a, fields);
    PolicyValuesAreUnique(Offer, a, fields);
    KeyedIsUnique(fields, OFFER_KEYS);
    KeyedIsExact(fields, OFFER_KEYS);
  }

  lemma FullHolds(stage: Stage, a: Artifact)
    requires stage != Offer && Complete(stage, a.terms)
    requires UniqueKeys(a.terms.originPolicy) && UniqueKeys(a.terms.destinationPolicy.value)
    ensures Carries(stage, a, FullFields(stage, a))
  {
    var fields := FullFields(stage, a);
    FullKeysArePlain();
    FullFieldsInPlace(stage, a);
    FullHead(stage, a, fields);
    FullReadsBack(stage, a, fields);
    PolicyValuesAreUnique(stage, a, fields);
    KeyedIsUnique(fields, FULL_KEYS);
    KeyedIsExact(fields, FULL_KEYS);
  }

  lemma CarriedIsRead(platform: Platform, stage: Stage, a: Artifact, fields: seq<Field>, raw: Text, now: int)
    requires Carries(stage, a, fields) && ValidArtifact(platform, stage, a, now)
    requires JsonParser.ParseDocument(raw, true) == JsonParser.Accepted(Object(fields)) && Utf8Length(raw) <= 8192
    ensures ReadArtifact(platform, stage, raw, now) == Some(a)
  {
  }

  lemma ValidIsComplete(platform: Platform, stage: Stage, a: Artifact, now: int)
    requires ValidArtifact(platform, stage, a, now)
    ensures Complete(stage, a.terms) && UniqueKeys(a.terms.originPolicy)
    ensures a.terms.destinationPolicy.Some? ==> UniqueKeys(a.terms.destinationPolicy.value)
  {
  }

  /** An artifact that passes the field checks is read back as itself from every spelling within the size bound. */
  lemma ArtifactReadsBack(platform: Platform, stage: Stage, a: Artifact, raw: Text, now: int)
    requires ValidArtifact(platform, stage, a, now)
    requires Spells(raw, ArtifactValue(stage, a)) && Utf8Length(raw) <= 8192
    ensures ReadArtifact(platform, stage, raw, now) == Some(a)
  {
    var fields := if stage == Offer then OfferFields(a) else FullFields(stage, a);
    ValidIsComplete(platform, stage, a, now);
    if stage == Offer { OfferHolds(a); } else { FullHolds(stage, a); }
    SpelledIsParsed(raw, Object(fields));
    CarriedIsRead(platform, stage, a, fields, raw, now);
  }

  // ---------------------------------------------------------------- handshake frames

  function HandshakeHead(kind: string, t: InitTerms): seq<Field> {
    [ Named("kind", Str(Ascii(kind))), Named("version", Number(Decimal(RELAY_PROTOCOL_VERSION))),
      Named("channel", Str(Ascii(RELAY_CHANNEL_KIND))), Named("connectionId", Str(t.connectionId)),
      Named("initiatorAuthorityId", Str(t.initiator)), Named("initiatorFingerprint", Str(t.initiatorFingerprint)),
      Named("initiatorPublicKeySpkiB64", Str(t.initiatorKey)), Named("initiatorTransportPolicy", t.initiatorPolicy),
      Named("responderAuthorityId", Str(t.responder))]
  }

  function InitFields(f: InitFrame): seq<Field> {
    HandshakeHead("relayHandshakeInit", f.init) + [
      Named("stateDir", f.stateDir), Named("heartbeatIntervalMs", f.heartbeat), Named("nonce", Str(f.init.nonce)),
      Named("issuedAt", Str(f.init.issuedAt)), Named("expiresAt", Str(f.init.expiresAt)),
      Named("signature", Str(f.signature))]
  }

  function AcceptFields(f: AcceptFrame): seq<Field> {
    var t := f.terms;
    HandshakeHead("relayHandshakeAccept", t.init) + [
      Named("responderFingerprint", Str(t.responderFingerprint)),
      Named("responderPublicKeySpkiB64", Str(t.responderKey)),
      Named("responderTransportPolicy", t.responderPolicy), Named("initiatorNonce", Str(t.init.nonce)),
      Named("responderNonce", Str(t.responderNonce)), Named("issuedAt", Str(t.init.issuedAt)),
      Named("expiresAt", Str(t.init.expiresAt)), Named("signature", Str(f.signature))]
  }

  lemma HandshakeKeysEndPlain()
    ensures AllPlain(INIT_KEYS) && AllPlain(ACCEPT_KEYS)
  {
  }

  lemma InitKeysApart()
    ensures ApartFrom(INIT_KEYS, 0, 4)
  {
  }

  lemma InitKeysApartNext()
    ensures ApartFrom(INIT_KEYS, 4, 8)
  {
  }

  lemma InitKeysApartLast()
    ensures ApartFrom(INIT_KEYS, 8, |INIT_KEYS|)
  {
  }

  lemma AcceptKeysApart()
    ensures ApartFrom(ACCEPT_KEYS, 0, 4)
  {
  }

  lemma AcceptKeysApartNext()
    ensures ApartFrom(ACCEPT_KEYS, 4, 9)
  {
    assert ApartFrom(ACCEPT_KEYS, 4, 6);
    AcceptKeysApartMiddle();
  }

  lemma AcceptKeysApartMiddle()
    ensures ApartFrom(ACCEPT_KEYS, 6, 9)
  {
  }

  lemma AcceptKeysApartLast()
    ensures ApartFrom(ACCEPT_KEYS, 9, |ACCEPT_KEYS|)
  {
  }

  lemma InitKeysArePlain()
    ensures PlainNames(INIT_KEYS)
  {
    HandshakeKeysEndPlain();
    InitKeysApart();
    InitKeysApartNext();
    InitKeysApartLast();
    ApartInParts(INIT_KEYS, 4, 8);
  }

  lemma AcceptKeysArePlain()
    ensures PlainNames(ACCEPT_KEYS)
  {
    HandshakeKeysEndPlain();
    AcceptKeysApart();
    AcceptKeysApartNext();
    AcceptKeysApartLast();
    ApartInParts(ACCEPT_KEYS, 4, 9);
  }

  lemma InitFieldsInPlace(f: InitFrame)
    ensures PlainNames(INIT_KEYS) && InPlace(InitFields(f), INIT_KEYS)
  {
    InitKeysArePlain();
    assert Keyed(InitFields(f), INIT_KEYS);
    KeyedIsInPlace(InitFields(f), INIT_KEYS);
  }

  lemma AcceptFieldsInPlace(f: AcceptFrame)
    ensures PlainNames(ACCEPT_KEYS) && InPlace(AcceptFields(f), ACCEPT_KEYS)
  {
    AcceptKeysArePlain();
    assert Keyed(AcceptFields(f), ACCEPT_KEYS);
    KeyedIsInPlace(AcceptFields(f), ACCEPT_KEYS);
  }

  /** The first nine names of both frames. */
  predicate HeadNames(names: seq<string>) {
    && |names| >= 9 && names[0] == "kind" && names[1] == "version" && names[2] == "channel"
    && names[3] == "connectionId" && names[4] == "initiatorAuthorityId" && names[5] == "initiatorFingerprint"
    && names[6] == "initiatorPublicKeySpkiB64" && names[7] == "initiatorTransportPolicy"
    && names[8] == "responderAuthorityId"
  }

  lemma HeadReadsBack(kind: string, t: InitTerms, fields: seq<Field>, names: seq<string>)
    requires HeadNames(names) && InPlace(fields, names) && fields[..9] == HandshakeHead(kind, t)
    ensures HasHead(fields, kind)
  {
    assert fields[0] == fields[..9][0] && fields[1] == fields[..9][1] && fields[2] == fields[..9][2];
  }

  lemma InitiatorReadsBack(kind: string, t: InitTerms, fields: seq<Field>, names: seq<string>)
    requires HeadNames(names) && InPlace(fields, names) && fields[..9] == HandshakeHead(kind, t)
    ensures GetText(fields, "connectionId") == t.connectionId && GetText(fields, "initiatorAuthorityId") == t.initiator
    ensures GetText(fields, "initiatorFingerprint") == t.initiatorFingerprint
  {
    assert fields[3] == fields[..9][3] && fields[4] == fields[..9][4] && fields[5] == fields[..9][5];
  }

  lemma InitiatorKeyReadsBack(kind: string, t: InitTerms, fields: seq<Field>, names: seq<string>)
    requires HeadNames(names) && InPlace(fields, names) && fields[..9] == HandshakeHead(kind, t)
    ensures GetText(fields, "initiatorPublicKeySpkiB64") == t.initiatorKey
    ensures Get(fields, "initiatorTransportPolicy") == Some(t.initiatorPolicy)
    ensures GetText(fields, "responderAuthorityId") == t.responder
  {
    assert fields[6] == fields[..9][6] && fields[7] == fields[..9][7] && fields[8] == fields[..9][8];
  }

  lemma InitRest(f: InitFrame, fields: seq<Field>)
    requires fields == InitFields(f) && InPlace(fields, INIT_KEYS)
    ensures Get(fields, "stateDir") == Some(f.stateDir) && Get(fields, "heartbeatIntervalMs") == Some(f.heartbeat)
    ensures GetText(fields, "nonce") == f.init.nonce && GetText(fields, "issuedAt") == f.init.issuedAt
    ensures GetText(fields, "expiresAt") == f.init.expiresAt && GetText(fields, "signature") == f.signature
  {
    assert INIT_KEYS[9] == "stateDir" && INIT_KEYS[10] == "heartbeatIntervalMs" && INIT_KEYS[11] == "nonce";
    assert INIT_KEYS[12] == "issuedAt" && INIT_KEYS[13] == "expiresAt" && INIT_KEYS[14] == "signature";
  }

  lemma AcceptResponder(f: AcceptFrame, fields: seq<Field>)
    requires fields == AcceptFields(f) && InPlace(fields, ACCEPT_KEYS)
    ensures GetText(fields, "responderFingerprint") == f.terms.responderFingerprint
    ensures GetText(fields, "responderPublicKeySpkiB64") == f.terms.responderKey
    ensures Get(fields, "responderTransportPolicy") == Some(f.terms.responderPolicy)
  {
    assert ACCEPT_KEYS[9] == "responderFingerprint" && ACCEPT_KEYS[10] == "responderPublicKeySpkiB64";
    assert ACCEPT_KEYS[11] == "responderTransportPolicy";
  }

  lemma AcceptRest(f: AcceptFrame, fields: seq<Field>)
    requires fields == AcceptFields(f) && InPlace(fields, ACCEPT_KEYS)
    ensures GetText(fields, "initiatorNonce") == f.terms.init.nonce
    ensures GetText(fields, "responderNonce") == f.terms.responderNonce
    ensures GetText(fields, "issuedAt") == f.terms.init.issuedAt
    ensures GetText(fields, "expiresAt") == f.terms.init.expiresAt && GetText(fields, "signature") == f.signature
  {
    assert ACCEPT_KEYS[12] == "initiatorNonce" && ACCEPT_KEYS[13] == "responderNonce" && ACCEPT_KEYS[14] == "issuedAt";
    assert ACCEPT_KEYS[15] == "expiresAt" && ACCEPT_KEYS[16] == "signature";
  }

  lemma InitReadsBackFields(f: InitFrame, fields: seq<Field>)
    requires fields == InitFields(f) && InPlace(fields, INIT_KEYS)
    ensures HasHead(fields, "relayHandshakeInit") && FieldsInitTerms(fields, "nonce") == f.init
  {
    assert fields[..9] == HandshakeHead("relayHandshakeInit", f.init) && HeadNames(INIT_KEYS);
    HeadReadsBack("relayHandshakeInit", f.init, fields, INIT_KEYS);
    InitiatorReadsBack("relayHandshakeInit", f.init, fields, INIT_KEYS);
    InitiatorKeyReadsBack("relayHandshakeInit", f.init, fields, INIT_KEYS);
    InitRest(f, fields);
  }

  lemma AcceptReadsBackFields(f: AcceptFrame, fields: seq<Field>)
    requires fields == AcceptFields(f) && InPlace(fields, ACCEPT_KEYS)
    ensures HasHead(fields, "relayHandshakeAccept") && FieldsAcceptTerms(fields) == f.terms
  {
    assert fields[..9] == HandshakeHead("relayHandshakeAccept", f.terms.init) && HeadNames(ACCEPT_KEYS);
    HeadReadsBack("relayHandshakeAccept", f.terms.init, fields, ACCEPT_KEYS);
    InitiatorReadsBack("relayHandshakeAccept", f.terms.init, fields, ACCEPT_KEYS);
    InitiatorKeyReadsBack("relayHandshakeAccept", f.terms.init, fields, ACCEPT_KEYS);
    AcceptResponder(f, fields);
    AcceptRest(f, fields);
  }

  lemma InitValuesAreUnique(f: InitFrame, fields: seq<Field>)
    requires fields == InitFields(f) && UniqueKeys(f.init.initiatorPolicy)
    requires UniqueKeys(f.stateDir) && UniqueKeys(f.heartbeat)
    ensures forall i | 0 <= i < |fields| :: UniqueKeys(fields[i].value)
  {
  }

  lemma AcceptValuesAreUnique(f: AcceptFrame, fields: seq<Field>)
    requires fields == AcceptFields(f)
    requires UniqueKeys(f.terms.init.initiatorPolicy) && UniqueKeys(f.terms.responderPolicy)
    ensures forall i | 0 <= i < |fields| :: UniqueKeys(fields[i].value)
  {
  }

  ghost predicate CarriesInit(f: InitFrame, fields: seq<Field>) {
    && ExactKeys(fields, INIT_KEYS) && HasHead(fields, "relayHandshakeInit") && UniqueKeys(Object(fields))
    && FieldsInitTerms(fields, "nonce") == f.init && ValueOrNull(Get(fields, "stateDir")) == f.stateDir
    && ValueOrNull(Get(fields, "heartbeatIntervalMs")) == f.heartbeat && GetText(fields, "signature") == f.signature
  }

  ghost predicate CarriesAccept(f: AcceptFrame, fields: seq<Field>) {
    && ExactKeys(fields, ACCEPT_KEYS) && HasHead(fields, "relayHandshakeAccept") && UniqueKeys(Object(fields))
    && FieldsAcceptTerms(fields) == f.terms && GetText(fields, "signature") == f.signature
  }

  lemma InitIsCarried(f: InitFrame)
    requires UniqueKeys(f.init.initiatorPolicy) && UniqueKeys(f.stateDir) && UniqueKeys(f.heartbeat)
    ensures CarriesInit(f, InitFields(f))
  {
    var fields := InitFields(f);
    InitFieldsInPlace(f);
    InitReadsBackFields(f, fields);
    InitRest(f, fields);
    InitValuesAreUnique(f, fields);
    KeyedIsUnique(fields, INIT_KEYS);
    KeyedIsExact(fields, INIT_KEYS);
  }

  lemma AcceptIsCarried(f: AcceptFrame)
    requires UniqueKeys(f.terms.init.initiatorPolicy) && UniqueKeys(f.terms.responderPolicy)
    ensures CarriesAccept(f, AcceptFields(f))
  {
    var fields := AcceptFields(f);
    AcceptFieldsInPlace(f);
    AcceptReadsBackFields(f, fields);
    AcceptRest(f, fields);
    AcceptValuesAreUnique(f, fields);
    KeyedIsUnique(fields, ACCEPT_KEYS);
    KeyedIsExact(fields, ACCEPT_KEYS);
  }

  lemma CarriedInitIsRead(platform: Platform, f: InitFrame, fields: seq<Field>, raw: Text, now: int)
    requires CarriesInit(f, fields) && ValidInitTerms(platform, f.init, now) && IsBase64(f.signature)
    requires (f.stateDir == Null || f.stateDir.Str?) && ValidHeartbeat(f.heartbeat)
    requires JsonParser.ParseDocument(raw, true) == JsonParser.Accepted(Object(fields)) && Utf8Length(raw) <= 16_384
    ensures ReadInit(platform, raw, now) == Some(f)
  {
  }

  lemma CarriedAcceptIsRead(platform: Platform, f: AcceptFrame, fields: seq<Field>, raw: Text, now: int)
    requires CarriesAccept(f, fields) && ValidAcceptTerms(platform, f.terms, now) && IsBase64(f.signature)
    requires JsonParser.ParseDocument(raw, true) == JsonParser.Accepted(Object(fields)) && Utf8Length(raw) <= 16_384
    ensures ReadAccept(platform, raw, now) == Some(f)
  {
  }

  lemma HandshakePoliciesAreUnique(platform: Platform, t: InitTerms, now: int)
    requires ValidInitTerms(platform, t, now)
    ensures UniqueKeys(t.initiatorPolicy)
  {
  }

  /** A valid handshake frame is read back as itself from every spelling within the line bound. */
  lemma InitReadsBack(platform: Platform, f: InitFrame, raw: Text, now: int)
    requires ValidInitTerms(platform, f.init, now) && IsBase64(f.signature)
    requires (f.stateDir == Null || f.stateDir.Str?) && ValidHeartbeat(f.heartbeat)
    requires Spells(raw, Object(InitFields(f))) && Utf8Length(raw) <= 16_384
    ensures ReadInit(platform, raw, now) == Some(f)
  {
    var fields := InitFields(f);
    HandshakePoliciesAreUnique(platform, f.init, now);
    InitIsCarried(f);
    SpelledIsParsed(raw, Object(fields));
    CarriedInitIsRead(platform, f, fields, raw, now);
  }

  lemma AcceptReadsBack(platform: Platform, f: AcceptFrame, raw: Text, now: int)
    requires ValidAcceptTerms(platform, f.terms, now) && IsBase64(f.signature)
    requires Spells(raw, Object(AcceptFields(f))) && Utf8Length(raw) <= 16_384
    ensures ReadAccept(platform, raw, now) == Some(f)
  {
    var fields := AcceptFields(f);
    HandshakePoliciesAreUnique(platform, f.terms.init, now);
    AcceptIsCarried(f);
    SpelledIsParsed(raw, Object(fields));
    CarriedAcceptIsRead(platform, f, fields, raw, now);
  }
}
