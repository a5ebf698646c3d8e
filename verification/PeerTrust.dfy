/** The durable trust records of one machine, one record per peer authority. */
module PeerTrust {
  import opened Options
  import opened Utf16
  import opened JsonGrammar
  import opened Transcripts
  import opened Artifacts

  datatype TrustState = Pending | Confirming | Active | Revoked

  datatype TrustRecord = TrustRecord(
    authority: Text,
    key: Text,
    fingerprint: Text,
    policy: Value,
    state: TrustState,
    revokedReason: Option<Text>)

  type Trust = map<Text, TrustRecord>

  function Rank(s: TrustState): nat {
    match s
    case Pending => 0
    case Confirming => 1
    case Active => 2
    case Revoked => 3
  }

  /** `JSON.stringify` on both sides, so the order of fields counts. */
  predicate SamePolicy(p: Value, q: Value) {
    Print(p) == Print(q)
  }

  predicate IsAuthorityId(t: Text) {
    |t| == 74 && t[..10] == Ascii("authority-") && IsFingerprint(t[10..])
  }

  /** `boundPeerKey` and `boundTransportPolicy`: the checks on what a caller asks to pin. */
  predicate ValidPin(platform: Platform, authority: Text, key: Text, policy: Value, now: int) {
    && IsAuthorityId(authority) && authority == platform.AuthorityFor(key)
    && ValidPolicy(platform, policy, now) && PolicyPeerIs(policy, authority)
  }

  predicate Pins(r: TrustRecord, key: Text, fingerprint: Text, policy: Value) {
    r.key == key && r.fingerprint == fingerprint && SamePolicy(r.policy, policy)
  }

  /** A record that exists already must not be revoked and must pin exactly the same. */
  predicate MayPin(platform: Platform, trust: Trust, authority: Text, key: Text, policy: Value) {
    authority in trust ==>
      trust[authority].state != Revoked && Pins(trust[authority], key, platform.fingerprintOf(key), policy)
  }

  predicate AdvanceGuard(platform: Platform, trust: Trust, authority: Text, key: Text, policy: Value, now: int) {
    ValidPin(platform, authority, key, policy, now) && MayPin(platform, trust, authority, key, policy)
  }

  function Advanced(platform: Platform, trust: Trust, authority: Text, key: Text, policy: Value,
      toState: TrustState): Trust {
    if authority !in trust then
      trust[authority := TrustRecord(authority, key, platform.fingerprintOf(key), policy, toState, None)]
    else if trust[authority].state == Active || trust[authority].state == toState then trust
    else trust[authority := trust[authority].(state := toState)]
  }

  function Prepared(platform: Platform, trust: Trust, authority: Text, key: Text, policy: Value): Trust {
    if authority in trust then trust
    else trust[authority := TrustRecord(authority, key, platform.fingerprintOf(key), policy, Pending, None)]
  }

  predicate RevokeGuard(trust: Trust, authority: Text, reason: Text) {
    IsAuthorityId(authority) && NonBlank(reason) && authority in trust
  }

  function RevokedIn(trust: Trust, authority: Text, reason: Text): Trust
    requires authority in trust
  {
    if trust[authority].state == Revoked then trust
    else trust[authority := trust[authority].(state := Revoked, revokedReason := Some(reason))]
  }

  /** `readActivePeerTrust`. */
  function ActiveRecord(trust: Trust, authority: Text): (r: Option<TrustRecord>)
    ensures r.Some? <==> authority in trust && trust[authority].state == Active
  {
    if authority in trust && trust[authority].state == Active then Some(trust[authority]) else None
  }

  class PeerTrustStore {
    var records: Trust

    constructor ()
      ensures records == map[]
    {
      records := map[];
    }

    method Prepare(platform: Platform, authority: Text, key: Text, policy: Value, now: int)
        returns (r: Option<TrustRecord>)
      modifies this
      ensures r.Some? <==> AdvanceGuard(platform, old(records), authority, key, policy, now)
      ensures records == if r.Some? then Prepared(platform, old(records), authority, key, policy) else old(records)
      ensures r.Some? ==> authority in records && r.value == records[authority]
    {
      if !ValidPin(platform, authority, key, policy, now) { return None; }
      var fingerprint := platform.fingerprintOf(key);
      if authority in records {
        var existing := records[authority];
        if existing.state == Revoked { return None; }
        if Pins(existing, key, fingerprint, policy) { return Some(existing); }
        return None;
      }
      var record := TrustRecord(authority, key, fingerprint, policy, Pending, None);
      records := records[authority := record];
      r := Some(record);
    }

    method AdvanceFromProof(platform: Platform, authority: Text, key: Text, policy: Value, toState: TrustState,
        now: int)
      returns (r: Option<TrustRecord>)
      modifies this
      ensures r.Some? <==> AdvanceGuard(platform, old(records), authority, key, policy, now)
      ensures records == if r.Some? then Advanced(platform, old(records), authority, key, policy, toState)
                else old(records)
      ensures r.Some? ==> authority in records && r.value == records[authority]
    {
      if !ValidPin(platform, authority, key, policy, now) { return None; }
      var fingerprint := platform.fingerprintOf(key);
      var record := TrustRecord(authority, key, fingerprint, policy, toState, None);
      if authority in records {
        var existing := records[authority];
        if existing.state == Revoked { return None; }
        if !Pins(existing, key, fingerprint, policy) { return None; }
        if existing.state == Active || existing.state == toState { return Some(existing); }
        record := existing.(state := toState);
      }
      records := records[authority := record];
      r := Some(record);
    }

    method Revoke(authority: Text, reason: Text) returns (r: Option<TrustRecord>)
      modifies this
      ensures r.Some? <==> RevokeGuard(old(records), authority, reason)
      ensures records == if r.Some? then RevokedIn(old(records), authority, reason) else old(records)
      ensures r.Some? ==> r.value == records[authority] && r.value.state == Revoked
    {
      if !IsAuthorityId(authority) || !NonBlank(reason) || authority !in records { return None; }
      var existing := records[authority];
      if existing.state == Revoked { return Some(existing); }
      var record := existing.(state := Revoked, revokedReason := Some(reason));
      records := records[authority := record];
      r := Some(record);
    }
  }

  // ---------------------------------------------------------------- what every operation keeps

  /** Every record is filed under its authority, which is the authority of the key it pins. */
  ghost predicate StoreWf(platform: Platform, trust: Trust) {
    forall a | a in trust ::
      && trust[a].authority == a
      && platform.AuthorityFor(trust[a].key) == a && platform.fingerprintOf(trust[a].key) == trust[a].fingerprint
  }

  /** Nothing is forgotten, re-pinned or moved back. */
  ghost predicate Extends(before: Trust, after: Trust) {
    forall a | a in before ::
      && a in after
      && after[a].key == before[a].key && after[a].fingerprint == before[a].fingerprint
         && after[a].policy == before[a].policy
      && Rank(before[a].state) <= Rank(after[a].state)
  }

  /** No authority is more trusted afterwards: it is confirming or active only if it was so before. */
  ghost predicate NoGain(before: Trust, after: Trust) {
    forall a | a in after && (after[a].state == Confirming || after[a].state == Active) ::
      a in before && before[a].state == after[a].state
  }

  /** `prepare` never trusts, moves back or re-pins. */
  lemma PrepareKeeps(platform: Platform, trust: Trust, authority: Text, key: Text, policy: Value)
    requires StoreWf(platform, trust) && authority == platform.AuthorityFor(key)
    ensures var after := Prepared(platform, trust, authority, key, policy);
            StoreWf(platform, after) && Extends(trust, after) && NoGain(trust, after)
  {
  }

  /** The proof-gated advance keeps every pin and moves nobody back. */
  lemma AdvanceKeeps(platform: Platform, trust: Trust, authority: Text, key: Text, policy: Value, toState: TrustState)
    requires StoreWf(platform, trust) && authority == platform.AuthorityFor(key)
    requires MayPin(platform, trust, authority, key, policy)
    requires toState == Confirming || toState == Active
    ensures var after := Advanced(platform, trust, authority, key, policy, toState);
            StoreWf(platform, after) && Extends(trust, after)
  {
  }

  /** It raises only the authority whose proof was shown, to the requested state or to where it already was. */
  lemma AdvanceRaisesOne(platform: Platform, trust: Trust, authority: Text, key: Text, policy: Value,
      toState: TrustState)
    requires StoreWf(platform, trust) && authority == platform.AuthorityFor(key)
    requires MayPin(platform, trust, authority, key, policy)
    requires toState == Confirming || toState == Active
    ensures var after := Advanced(platform, trust, authority, key, policy, toState);
            && NoGain(trust, after - {authority})
            && authority in after && after[authority].key == key
            && Rank(toState) <= Rank(after[authority].state) <= Rank(Active)
  {
  }

  lemma RevokeKeeps(platform: Platform, trust: Trust, authority: Text, reason: Text)
    requires StoreWf(platform, trust) && RevokeGuard(trust, authority, reason)
    ensures var after := RevokedIn(trust, authority, reason);
            StoreWf(platform, after) && Extends(trust, after) && NoGain(trust, after)
  {
  }

  /** A revoked authority is refused for good, whatever it presents. */
  lemma RevokedIsTerminal(platform: Platform, trust: Trust, after: Trust, authority: Text, key: Text, policy: Value,
      now: int)
    requires authority in trust && trust[authority].state == Revoked && Extends(trust, after)
    ensures after[authority].state == Revoked && ActiveRecord(after, authority).None?
    ensures !AdvanceGuard(platform, after, authority, key, policy, now)
  {
  }

  lemma ExtendsTransitive(a: Trust, b: Trust, c: Trust)
    requires Extends(a, b) && Extends(b, c)
    ensures Extends(a, c)
  {
  }
}
