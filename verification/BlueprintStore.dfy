/**
 The durable lifecycle state of one channel, as the SQLite store keeps it.

 A resume attempt holds a fence token (owner, key and epoch). Every write of an attempt checks that
 the token is current and the lease alive; a write with a stale token returns false and changes
 nothing. The lease is a flag here: time can only clear it, a renewal can only keep it.
 */
module BlueprintStore {
  import opened Options

  type MemberId = string
  type Conversation = string
  type Key = string
  type Owner = string

  datatype Runtime = Runtime(session: string, runtime: string)

  /** A member of a resumable blueprint, as far as resume looks at it. */
  datatype Member = Member(id: MemberId, provider: Option<Conversation>, runtimeOwned: bool, cursor: nat)

  datatype Delivery = Delivery(id: string, cursor: nat)

  datatype Outcome = Resumed(member: MemberId, runtime: Runtime, generation: nat)

  datatype Phase = Launched | ProviderResuming | ProviderResumed

  /** A row of `resume_launches`, without its key columns. */
  datatype Row = Row(runtime: Runtime, provider: Option<Conversation>, phase: Phase)

  /** A row of `resumed_members`. */
  datatype Resident = Resident(runtime: Runtime, generation: nat)

  datatype ChannelState = Suspended | Resuming | Active

  datatype Token = Token(owner: Owner, key: Key, epoch: nat)

  datatype Db = Db(
    state: ChannelState,
    key: Option<Key>,
    owner: Option<Owner>,
    epoch: nat,
    live: bool,
    generation: nat,
    launches: map<(MemberId, nat), Row>,
    residents: map<MemberId, Resident>,
    results: map<Key, seq<Outcome>>,
    queue: set<Delivery>,
    acks: set<(MemberId, string)>)

  // ---------------------------------------------------------------- what each statement does

  /** `resumeAttemptCurrent`, and what `renewResume` requires. */
  predicate Current(db: Db, t: Token) {
    db.state == Resuming && db.key == Some(t.key) && db.owner == Some(t.owner) && db.epoch == t.epoch && db.live
  }

  /** A suspended channel may be claimed by anyone; a resuming one only to continue it once its lease has run out. */
  predicate Claimable(db: Db, key: Key, generation: nat) {
    db.state == Suspended || (db.state == Resuming && db.key == Some(key) && db.generation == generation && !db.live)
  }

  function Claimed(db: Db, key: Key, generation: nat, owner: Owner): Db {
    db.(state := Resuming, key := Some(key), owner := Some(owner), live := true, epoch := db.epoch + 1,
        generation := generation)
  }

  function CurrentToken(db: Db, key: Key, owner: Owner): Option<Token> {
    if Current(db, Token(owner, key, db.epoch)) then Some(Token(owner, key, db.epoch)) else None
  }

  function Recorded(db: Db, member: MemberId, generation: nat, runtime: Runtime, provider: Option<Conversation>): Db {
    db.(launches := db.launches[(member, generation) := Row(runtime, provider, Launched)])
  }

  function Phased(db: Db, member: MemberId, generation: nat, phase: Phase): Db
    requires (member, generation) in db.launches
  {
    db.(launches := db.launches[(member, generation) := db.launches[(member, generation)].(phase := phase)])
  }

  function Cleared(db: Db, generation: nat): Db {
    db.(launches := map k | k in db.launches && k.1 != generation :: db.launches[k])
  }

  function Installed(db: Db, member: MemberId, generation: nat, runtime: Runtime): Db {
    db.(residents := db.residents[member := Resident(runtime, generation)])
  }

  function MembersRolledBack(db: Db, generation: nat): Db {
    db.(residents := map m | m in db.residents && db.residents[m].generation != generation :: db.residents[m])
  }

  function Saved(db: Db, key: Key, result: seq<Outcome>): Db {
    db.(results := db.results[key := result])
  }

  function Activated(db: Db): Db {
    db.(state := Active, owner := None, live := false)
  }

  function Released(db: Db): Db {
    db.(state := Suspended, key := None, owner := None, live := false)
  }

  function PendingAfter(db: Db, cursor: nat, member: MemberId): set<Delivery> {
    set d | d in db.queue && d.cursor > cursor && (member, d.id) !in db.acks
  }

  function LaunchesOf(db: Db, generation: nat): map<(MemberId, nat), Row> {
    map k | k in db.launches && k.1 == generation :: db.launches[k]
  }

  function Acknowledged(db: Db, member: MemberId, delivery: string): Db {
    db.(acks := db.acks + {(member, delivery)})
  }

  // ---------------------------------------------------------------- the store

  class Store {
    var db: Db

    constructor (db: Db)
      ensures this.db == db
    {
      this.db := db;
    }

    /** The lease of `token` runs out, if it is `token` that holds it. */
    method LeaseRunsOut(token: Token)
      modifies this
      ensures db == if Current(old(db), token) then old(db).(live := false) else old(db)
    {
      var ok := RenewResume(token);
      if ok { db := db.(live := false); }
    }

    /** A transaction that throws takes back what it wrote; time stays as it is. */
    method Rollback(before: Db)
      modifies this
      ensures db == before.(live := old(db).live)
    {
      db := before.(live := db.live);
    }

    method ResumeLaunches(generation: nat) returns (launches: map<(MemberId, nat), Row>)
      ensures launches == LaunchesOf(db, generation)
    {
      launches := map k | k in db.launches && k.1 == generation :: db.launches[k];
    }

    method ResumeResult(key: Key) returns (result: Option<seq<Outcome>>)
      ensures result == if key in db.results then Some(db.results[key]) else None
    {
      result := if key in db.results then Some(db.results[key]) else None;
    }

    method PendingDeliveries(cursor: nat, member: MemberId, token: Token) returns (pending: set<Delivery>)
      ensures pending == if Current(db, token) then PendingAfter(db, cursor, member) else {}
    {
      var ok := RenewResume(token);
      if !ok { return {}; }
      pending := set d | d in db.queue && d.cursor > cursor && (member, d.id) !in db.acks;
    }

    method ClaimResume(key: Key, generation: nat, owner: Owner) returns (ok: bool)
      modifies this
      ensures ok <==> Claimable(old(db), key, generation)
      ensures db == if ok then Claimed(old(db), key, generation, owner) else old(db)
    {
      if db.state == Suspended {
        ok := true;
      } else if db.state == Resuming {
        ok := db.key == Some(key) && db.generation == generation && !db.live;
      } else {
        ok := false;
      }
      if ok {
        db := db.(state := Resuming, key := Some(key), owner := Some(owner), epoch := db.epoch + 1);
        db := db.(live := true, generation := generation);
      }
    }

    method CurrentResumeFenceToken(key: Key, owner: Owner) returns (token: Option<Token>)
      ensures token == CurrentToken(db, key, owner)
      ensures token.Some? ==> Current(db, token.value)
    {
      if db.state != Resuming || db.key != Some(key) || db.owner != Some(owner) || !db.live { return None; }
      token := Some(Token(owner, key, db.epoch));
    }

    method RenewResume(token: Token) returns (ok: bool)
      ensures ok <==> Current(db, token)
    {
      ok := db.state == Resuming && db.key == Some(token.key) && db.owner == Some(token.owner)
          && db.epoch == token.epoch && db.live;
    }

    method RecordResumeLaunch(member: MemberId, generation: nat, runtime: Runtime, provider: Option<Conversation>,
        token: Token) returns (ok: bool)
      modifies this
      ensures ok <==> Current(old(db), token)
      ensures db == if ok then Recorded(old(db), member, generation, runtime, provider) else old(db)
    {
      ok := RenewResume(token);
      if ok {
        db := db.(launches := db.launches[(member, generation) := Row(runtime, provider, Launched)]);
      }
    }

    method SetResumeProviderPhase(member: MemberId, generation: nat, phase: Phase, token: Token) returns (ok: bool)
      modifies this
      ensures ok <==> Current(old(db), token) && (member, generation) in old(db).launches
      ensures db == if ok then Phased(old(db), member, generation, phase) else old(db)
    {
      ok := RenewResume(token);
      if !ok { return; }
      if (member, generation) !in db.launches { return false; }
      var row := db.launches[(member, generation)];
      db := db.(launches := db.launches[(member, generation) := row.(phase := phase)]);
    }

    method ClearResumeLaunches(generation: nat, token: Token) returns (ok: bool)
      modifies this
      ensures ok <==> Current(old(db), token)
      ensures db == if ok then Cleared(old(db), generation) else old(db)
    {
      ok := RenewResume(token);
      if ok {
        db := db.(launches := map k | k in db.launches && k.1 != generation :: db.launches[k]);
      }
    }

    method InstallResumedMember(member: MemberId, generation: nat, runtime: Runtime, token: Token) returns (ok: bool)
      modifies this
      ensures ok <==> Current(old(db), token)
      ensures db == if ok then Installed(old(db), member, generation, runtime) else old(db)
    {
      ok := RenewResume(token);
      if ok {
        db := db.(residents := db.residents[member := Resident(runtime, generation)]);
      }
    }

    method RollbackResumedMembers(generation: nat, token: Token) returns (ok: bool)
      modifies this
      ensures ok <==> Current(old(db), token)
      ensures db == if ok then MembersRolledBack(old(db), generation) else old(db)
    {
      ok := RenewResume(token);
      if ok {
        db := db.(residents := map m | m in db.residents
            && db.residents[m].generation != generation :: db.residents[m]);
      }
    }

    method SaveResumeResult(token: Token, result: seq<Outcome>) returns (ok: bool)
      modifies this
      ensures ok <==> Current(old(db), token)
      ensures db == if ok then Saved(old(db), token.key, result) else old(db)
    {
      ok := RenewResume(token);
      if ok {
        db := db.(results := db.results[token.key := result]);
      }
    }

    method MarkActive(token: Token) returns (ok: bool)
      modifies this
      ensures ok <==> Current(old(db), token)
      ensures db == if ok then Activated(old(db)) else old(db)
    {
      ok := RenewResume(token);
      if ok {
        db := db.(state := Active, owner := None, live := false);
      }
    }

    method ReleaseResume(token: Token)
      modifies this
      ensures db == if Current(old(db), token) then Released(old(db)) else old(db)
    {
      var ok := RenewResume(token);
      if ok {
        db := db.(state := Suspended, key := None, owner := None, live := false);
      }
    }

    method Acknowledge(member: MemberId, delivery: string, token: Token) returns (ok: bool)
      modifies this
      ensures ok <==> Current(old(db), token) && (member, delivery) !in old(db).acks
      ensures db == if ok then Acknowledged(old(db), member, delivery) else old(db)
    {
      ok := RenewResume(token);
      if !ok { return; }
      ok := (member, delivery) !in db.acks;
      db := db.(acks := db.acks + {(member, delivery)});
    }
  }
}
