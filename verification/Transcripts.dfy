/**
 Everything that a Rooms machine key ever signs, and the text that stands for it.

 A transcript is a domain line, a newline and a fixed-order JSON object. Two statements with
 the same transcript are the same statement, across all stages of enrollment, both halves of
 the relay handshake and terminal capabilities.

 A transcript is text in UTF-16 here; what the source signs is its UTF-8 encoding.
 */
module Transcripts {
  import opened Options
  import opened Utf16
  import opened JsonGrammar
  import opened JsonTheorems

  datatype Stage = Offer | Challenge | Accept | Confirm

  /** The fields that an enrollment artifact binds; the destination's half is absent in an offer. */
  datatype Terms = Terms(
    version: nat,
    enrollmentId: Text,
    origin: Text,
    destination: Text,
    originKey: Text,
    originFingerprint: Text,
    originPolicy: Value,
    destinationKey: Option<Text>,
    destinationFingerprint: Option<Text>,
    destinationPolicy: Option<Value>,
    originNonce: Text,
    destinationNonce: Option<Text>,
    issuedAt: Text,
    expiresAt: Text)
  {
    predicate Printable() {
      JsonTheorems.Printable(originPolicy)
          && (destinationPolicy.Some? ==> JsonTheorems.Printable(destinationPolicy.value))
    }
  }

  /** The initiator's half of a relay handshake. */
  datatype InitTerms = InitTerms(
    connectionId: Text,
    initiator: Text,
    initiatorFingerprint: Text,
    initiatorKey: Text,
    initiatorPolicy: Value,
    responder: Text,
    nonce: Text,
    issuedAt: Text,
    expiresAt: Text)

  /** What the responder signs: its own half beside everything that the initiator offered. */
  datatype AcceptTerms = AcceptTerms(
    init: InitTerms,
    responderFingerprint: Text,
    responderKey: Text,
    responderPolicy: Value,
    responderNonce: Text)

  datatype Statement =
    | Enrollment(stage: Stage, terms: Terms)
    | RelayInit(init: InitTerms)
    | RelayAccept(accept: AcceptTerms)
    | TerminalCapability(body: Value)
  {
    predicate Printable() {
      match this
      case Enrollment(_, terms) => terms.Printable()
      case RelayInit(init) => JsonTheorems.Printable(init.initiatorPolicy)
      case RelayAccept(accept) =>
          JsonTheorems.Printable(accept.init.initiatorPolicy) && JsonTheorems.Printable(accept.responderPolicy)
      case TerminalCapability(body) => JsonTheorems.Printable(body)
    }
  }

  const ENROLLMENT_TRANSCRIPT_DOMAIN := "rooms-federation-enrollment-v1"
  const RELAY_HANDSHAKE_DOMAIN := "rooms-federation-relay-v1"
  const TERMINAL_CAPABILITY_DOMAIN := "rooms-federation-terminal-capability-v1"
  const RELAY_PROTOCOL_VERSION := 3
  const RELAY_CHANNEL_KIND := "sshStdio"
  const NEWLINE: Unit := 0x0A

  function Named(name: string, value: Value): Field {
    Field(Ascii(name), value)
  }

  function TextOrNull(t: Option<Text>): Value {
    match t case Some(s) => Str(s) case None => Null
  }

  function ValueOrNull(v: Option<Value>): Value {
    match v case Some(w) => w case None => Null
  }

  function StageName(stage: Stage): string {
    match stage
    case Offer => "offer"
    case Challenge => "challenge"
    case Accept => "accept"
    case Confirm => "confirm"
  }

  function DomainLine(s: Statement): string {
    match s
    case Enrollment(stage, _) => ENROLLMENT_TRANSCRIPT_DOMAIN + ":" + StageName(stage)
    case RelayInit(_) => RELAY_HANDSHAKE_DOMAIN + ":" + "init"
    case RelayAccept(_) => RELAY_HANDSHAKE_DOMAIN + ":" + "accept"
    case TerminalCapability(_) => TERMINAL_CAPABILITY_DOMAIN
  }

  function EnrollmentBody(t: Terms): Value {
    Object([
      Named("version", Number(Decimal(t.version))),
      Named("enrollmentId", Str(t.enrollmentId)),
      Named("origin", Str(t.origin)),
      Named("destination", Str(t.destination)),
      Named("originPublicKeySpkiB64", Str(t.originKey)),
      Named("originFingerprint", Str(t.originFingerprint)),
      Named("originTransportPolicy", t.originPolicy),
      Named("destinationPublicKeySpkiB64", TextOrNull(t.destinationKey)),
      Named("destinationFingerprint", TextOrNull(t.destinationFingerprint)),
      Named("destinationTransportPolicy", ValueOrNull(t.destinationPolicy)),
      Named("originNonce", Str(t.originNonce)),
      Named("destinationNonce", TextOrNull(t.destinationNonce)),
      Named("issuedAt", Str(t.issuedAt)),
      Named("expiresAt", Str(t.expiresAt))])
  }

  function RelayHead(): seq<Field> {
    [Named("version", Number(Decimal(RELAY_PROTOCOL_VERSION))), Named("channel", Str(Ascii(RELAY_CHANNEL_KIND)))]
  }

  function RelayInitBody(t: InitTerms): Value {
    Object(RelayHead() + [
      Named("connectionId", Str(t.connectionId)),
      Named("initiatorAuthorityId", Str(t.initiator)),
      Named("initiatorFingerprint", Str(t.initiatorFingerprint)),
      Named("initiatorPublicKeySpkiB64", Str(t.initiatorKey)),
      Named("initiatorTransportPolicy", t.initiatorPolicy),
      Named("responderAuthorityId", Str(t.responder)),
      Named("nonce", Str(t.nonce)),
      Named("issuedAt", Str(t.issuedAt)),
      Named("expiresAt", Str(t.expiresAt))])
  }

  function RelayAcceptBody(t: AcceptTerms): Value {
    Object(RelayHead() + [
      Named("connectionId", Str(t.init.connectionId)),
      Named("initiatorAuthorityId", Str(t.init.initiator)),
      Named("initiatorFingerprint", Str(t.init.initiatorFingerprint)),
      Named("initiatorPublicKeySpkiB64", Str(t.init.initiatorKey)),
      Named("initiatorTransportPolicy", t.init.initiatorPolicy),
      Named("responderAuthorityId", Str(t.init.responder)),
      Named("responderFingerprint", Str(t.responderFingerprint)),
      Named("responderPublicKeySpkiB64", Str(t.responderKey)),
      Named("responderTransportPolicy", t.responderPolicy),
      Named("initiatorNonce", Str(t.init.nonce)),
      Named("responderNonce", Str(t.responderNonce)),
      Named("issuedAt", Str(t.init.issuedAt)),
      Named("expiresAt", Str(t.init.expiresAt))])
  }

  function Body(s: Statement): Value {
    match s
    case Enrollment(_, terms) => EnrollmentBody(terms)
    case RelayInit(init) => RelayInitBody(init)
    case RelayAccept(accept) => RelayAcceptBody(accept)
    case TerminalCapability(body) => body
  }

  function Transcript(s: Statement): Text {
    Ascii(DomainLine(s)) + ([NEWLINE] + Print(Body(s)))
  }

  // ---------------------------------------------------------------- injectivity

  ghost predicate OneLine(t: Text) {
    forall i | 0 <= i < |t| :: t[i] != NEWLINE
  }

  /** A text is cut at its first newline in one way only. */
  lemma FirstNewline(h: Text, b: Text, k: Text, c: Text)
    requires OneLine(h) && OneLine(k) && h + ([NEWLINE] + b) == k + ([NEWLINE] + c)
    ensures h == k && b == c
  {
    var s := h + ([NEWLINE] + b);
    assert s[|h|] == NEWLINE && s[|k|] == NEWLINE;
    assert forall i | 0 <= i < |h| :: s[i] == h[i];
    assert forall i | 0 <= i < |k| :: s[i] == k[i];
    assert |h| == |k|;
    assert h == s[..|h|] && k == s[..|k|];
    assert b == s[|h| + 1..] && c == s[|k| + 1..];
  }

  ghost predicate PlainLine(s: string) {
    forall i | 0 <= i < |s| :: s[i] as int < 0x80 && s[i] != '\n'
  }

  lemma PlainLineIsOneLine(s: string)
    requires PlainLine(s)
    ensures OneLine(Ascii(s))
  {
  }

  lemma DomainsArePlain()
    ensures PlainLine(ENROLLMENT_TRANSCRIPT_DOMAIN)
    ensures PlainLine(RELAY_HANDSHAKE_DOMAIN)
    ensures PlainLine(TERMINAL_CAPABILITY_DOMAIN)
  {
  }

  lemma DomainLineIsPlain(s: Statement)
    ensures PlainLine(DomainLine(s))
  {
    DomainsArePlain();
    match s {
      case Enrollment(stage, _) => assert PlainLine(StageName(stage));
      case RelayInit(_) =>
      case RelayAccept(_) =>
      case TerminalCapability(_) =>
    }
  }

  /** The seven domain lines differ, already in their lengths. */
  lemma DomainLinesDiffer(s: Statement, t: Statement)
    requires |DomainLine(s)| == |DomainLine(t)|
    ensures match s
            case Enrollment(stage, _) => t.Enrollment? && t.stage == stage
            case RelayInit(_) => t.RelayInit?
            case RelayAccept(_) => t.RelayAccept?
            case TerminalCapability(_) => t.TerminalCapability?
  {
  }

  lemma FieldsPrintableAt(fields: seq<Field>)
    requires forall i | 0 <= i < |fields| :: JsonTheorems.Printable(fields[i].value)
    ensures FieldsPrintable(fields)
  {
    if fields != [] {
      FieldsPrintableAt(fields[1..]);
    }
  }

  lemma BodyIsPrintable(s: Statement)
    requires s.Printable()
    ensures JsonTheorems.Printable(Body(s))
  {
    match s {
      case Enrollment(_, terms) =>
        DecimalIsNumber(terms.version);
        FieldsPrintableAt(EnrollmentBody(terms).fields);
      case RelayInit(init) =>
        DecimalIsNumber(RELAY_PROTOCOL_VERSION);
        FieldsPrintableAt(RelayInitBody(init).fields);
      case RelayAccept(accept) =>
        DecimalIsNumber(RELAY_PROTOCOL_VERSION);
        FieldsPrintableAt(RelayAcceptBody(accept).fields);
      case TerminalCapability(_) =>
    }
  }

  /** An absent policy is printed as null, so a policy must not itself be null. */
  predicate PolicyNotNull(terms: Terms) {
    terms.destinationPolicy != Some(Null)
  }

  // Each body is read back field by field, so a body determines its terms.

  function TextIn(fields: seq<Field>, i: nat): Text {
    if i < |fields| && fields[i].value.Str? then fields[i].value.s else []
  }

  function TextOrNullIn(fields: seq<Field>, i: nat): Option<Text> {
    if i < |fields| && fields[i].value.Str? then Some(fields[i].value.s) else None
  }

  function ValueIn(fields: seq<Field>, i: nat): Value {
    if i < |fields| then fields[i].value else Null
  }

  function TermsIn(version: nat, fields: seq<Field>): Terms {
    Terms(version, TextIn(fields, 1), TextIn(fields, 2), TextIn(fields, 3), TextIn(fields, 4), TextIn(fields, 5),
        ValueIn(fields, 6),
      TextOrNullIn(fields, 7), TextOrNullIn(fields, 8), if ValueIn(fields, 9) == Null then None
          else Some(ValueIn(fields, 9)),
      TextIn(fields, 10), TextOrNullIn(fields, 11), TextIn(fields, 12), TextIn(fields, 13))
  }

  lemma EnrollmentBodyInjective(s: Terms, t: Terms)
    requires EnrollmentBody(s) == EnrollmentBody(t) && PolicyNotNull(s) && PolicyNotNull(t)
    ensures s == t
  {
    TermsReadBack(s);
    TermsReadBack(t);
    assert EnrollmentBody(s).fields[0].value == Number(Decimal(s.version));
    assert EnrollmentBody(t).fields[0].value == Number(Decimal(t.version));
    DecimalInjective(s.version, t.version);
  }

  lemma TermsReadBack(t: Terms)
    requires PolicyNotNull(t)
    ensures TermsIn(t.version, EnrollmentBody(t).fields) == t
  {
  }

  function InitTermsIn(fields: seq<Field>): InitTerms {
    InitTerms(TextIn(fields, 2), TextIn(fields, 3), TextIn(fields, 4), TextIn(fields, 5), ValueIn(fields, 6),
      TextIn(fields, 7), TextIn(fields, 8), TextIn(fields, 9), TextIn(fields, 10))
  }

  lemma InitTermsReadBack(t: InitTerms)
    ensures InitTermsIn(RelayInitBody(t).fields) == t
  {
  }

  function AcceptTermsIn(fields: seq<Field>): AcceptTerms {
    AcceptTerms(
      InitTerms(TextIn(fields, 2), TextIn(fields, 3), TextIn(fields, 4), TextIn(fields, 5), ValueIn(fields, 6),
        TextIn(fields, 7), TextIn(fields, 11), TextIn(fields, 13), TextIn(fields, 14)),
      TextIn(fields, 8), TextIn(fields, 9), ValueIn(fields, 10), TextIn(fields, 12))
  }

  lemma AcceptTermsReadBack(t: AcceptTerms)
    ensures AcceptTermsIn(RelayAcceptBody(t).fields) == t
  {
  }

  /** A statement that the machines can actually sign: numbers are numbers, policies are objects. */
  predicate Signable(s: Statement) {
    s.Printable() && (s.Enrollment? ==> PolicyNotNull(s.terms))
  }

  /** Equal transcripts come from equal statements: same stage or handshake half, same value in every field. */
  lemma TranscriptInjective(s: Statement, t: Statement)
    requires Signable(s) && Signable(t) && Transcript(s) == Transcript(t)
    ensures s == t
  {
    DomainLineIsPlain(s);
    DomainLineIsPlain(t);
    PlainLineIsOneLine(DomainLine(s));
    PlainLineIsOneLine(DomainLine(t));
    FirstNewline(Ascii(DomainLine(s)), Print(Body(s)), Ascii(DomainLine(t)), Print(Body(t)));
    DomainLinesDiffer(s, t);
    BodyIsPrintable(s);
    BodyIsPrintable(t);
    PrintInjective(Body(s), Body(t));
    match s {
      case Enrollment(_, terms) => EnrollmentBodyInjective(terms, t.terms);
      case RelayInit(init) =>
        InitTermsReadBack(init);
        InitTermsReadBack(t.init);
      case RelayAccept(accept) =>
        AcceptTermsReadBack(accept);
        AcceptTermsReadBack(t.accept);
      case TerminalCapability(_) =>
    }
  }
}
