/**
 What a finished resume leaves behind: a commit has one resumed outcome per member, each delivery
 acknowledged after it was accepted; a release has every kept launch stopped and nothing standing.
 */
module ResumeHistory {
  import opened Options
  import opened BlueprintStore
  import opened ResumeSaga
  import opened ResumeSafety
  import opened ResumeSteps
  import opened ResumeTheorems

  // ---------------------------------------------------------------- what the log says of one attempt

  /** The teardown after a failure; only it can follow a dropped launch. */
  predicate TearsDown(op: Op) {
    op.StopLaunched? || op.RollbackLaunched? || op.RollbackGeneration?
  }

  predicate TearingDown(pc: Pc) {
    ((pc.Renew? || pc.Running? || pc.Checking?) && TearsDown(pc.op)) || pc.ReadDurable? || pc.Release? || pc.Failed?
        || pc.Crashed?
  }

  ghost predicate WasDropped(log: seq<Event>, t: Token, r: Runtime) {
    exists e :: e in log && e.Dropped? && e.token == t && e.runtime == r
  }

  /** Whatever was dropped had been launched, and while the lease lives it was dropped for the flag alone. */
  ghost predicate DropsKnown(db: Db, log: seq<Event>, t: Token) {
    forall e | e in log && e.Dropped? && e.token == t ::
      LaunchReturned(t, e.member, e.runtime) in log && (e.flagged || !e.current) && (Current(db, t) ==> e.current)
  }

  /** Every launch that returned to this attempt is kept, in flight or dropped; only kept ones are stopped. */
  ghost predicate LaunchesKnown(log: seq<Event>, a: Attempt, t: Token) {
    && (forall e | e in log && e.LaunchReturned? && e.token == t ::
          e.runtime in a.launched || a.arrived == Some(e.runtime) || WasDropped(log, t, e.runtime))
    && (forall e | e in log && e.Stopped? && e.token == t :: e.runtime in a.launched)
    && (forall i | 0 <= i < |a.launched| && i < |a.members| :: LaunchReturned(t, a.members[i].id, a.launched[i]) in log)
    && (a.arrived.Some? ==> a.pc == Checking(Launch(|a.launched|)) && |a.launched| < |a.members|
                            && LaunchReturned(t, a.members[|a.launched|].id, a.arrived.value) in log)
    && (forall e | e in log && e.Dropped? && e.token == t :: TearingDown(a.pc))
  }

  ghost predicate StoppedFrom(log: seq<Event>, launched: seq<Runtime>, t: Token, n: nat) {
    forall i | n <= i < |launched| :: Stopped(t, launched[i]) in log
  }

  /** The pending deliveries of a member were read, and all but `rest` were acknowledged. */
  ghost predicate Drained(log: seq<Event>, m: MemberId, t: Token, rest: seq<Delivery>) {
    exists pending: set<Delivery> :: Fetched(t, m, pending) in log && AllAcked(log, m, t, pending, rest)
  }

  ghost predicate AllAcked(log: seq<Event>, m: MemberId, t: Token, pending: set<Delivery>, rest: seq<Delivery>) {
    forall d | d in pending :: d in rest || Acked(t, m, d.id) in log
  }

  ghost predicate DrainedUpTo(log: seq<Event>, members: seq<Member>, t: Token, n: nat) {
    forall i | 0 <= i < n && i < |members| :: Drained(log, members[i].id, t, [])
  }

  /** The members before `i` are drained, and member `i` all but `rest`. */
  ghost predicate Delivering(log: seq<Event>, members: seq<Member>, t: Token, i: nat, rest: seq<Delivery>)
    requires i < |members|
  {
    DrainedUpTo(log, members, t, i) && Drained(log, members[i].id, t, rest)
  }

  predicate InCall(pc: Pc) {
    pc.Renew? || pc.Running? || pc.Checking?
  }

  /** What control knows at this point. Deliveries are only known to be drained while the lease is alive. */
  ghost predicate PcKnown(db: Db, log: seq<Event>, a: Attempt, t: Token)
    requires WellFormed(a)
  {
    && (InCall(a.pc) && a.pc.op.StopLaunched? && a.teardownOk ==> StoppedFrom(log, a.launched, t, a.pc.op.i + 1))
    && (InCall(a.pc) && a.pc.op.RollbackLaunched? && a.teardownOk ==> StoppedFrom(log, a.launched, t, a.pc.op.i))
    && ((InCall(a.pc) && a.pc.op.RollbackGeneration?) || a.pc.Release? ==> StoppedFrom(log, a.launched, t, 0))
    && (a.pc.Acknowledging? ==> Accepted(t, a.members[a.pc.i].id, a.pc.rest[0].id, a.launched[a.pc.i]) in log)
    && (Current(db, t) ==>
          && (InCall(a.pc) && a.pc.op.Deliver? ==>
                Delivering(log, a.members, t, a.pc.op.i, if a.pc.Checking? then a.pc.op.rest[1..] else a.pc.op.rest))
          && (a.pc.Acknowledging? ==> Delivering(log, a.members, t, a.pc.i, a.pc.rest))
          && (a.pc.Fetch? ==> DrainedUpTo(log, a.members, t, a.pc.i))
          && (a.pc.Commit? ==> DrainedUpTo(log, a.members, t, |a.members|)))
  }

  ghost predicate AttemptKnown(db: Db, log: seq<Event>, a: Attempt) {
    match a.token
    case None => a.launched == [] && a.arrived.None?
    case Some(t) =>
      a.pc.Crashed? || (WellFormed(a) && LaunchesKnown(log, a, t) && DropsKnown(db, log, t) && PcKnown(db, log, a, t))
  }

  // ---------------------------------------------------------------- tokens

  /** Tokens are not reused: whoever has the store's epoch owns it, and a fresh claim has said nothing yet. */
  ghost predicate TokensOk(s: System) {
    && (forall e | e in s.log :: e.token.epoch <= s.db.epoch)
    && (forall o | o in s.attempts && s.attempts[o].token.Some? ::
          && s.attempts[o].token.value.owner == o && s.attempts[o].token.value.epoch <= s.db.epoch
          && (s.attempts[o].token.value.epoch == s.db.epoch && s.db.state == Resuming ==> s.db.owner == Some(o)))
    && (forall o | o in s.attempts && s.attempts[o].pc.FetchToken? && s.db.state == Resuming && s.db.owner == Some(o) ::
          forall e | e in s.log :: e.token.epoch < s.db.epoch)
    && (forall o | o in s.attempts && (s.attempts[o].pc.Claim? || s.attempts[o].pc.FetchToken?) ::
       s.attempts[o].token.None?)
  }

  // ---------------------------------------------------------------- what the log may say

  ghost predicate CommitTrue(before: seq<Event>, t: Token, members: seq<Member>, result: seq<Outcome>) {
    && |result| == |members|
    && forall i | 0 <= i < |members| ::
         && result[i].member == members[i].id && LaunchReturned(t, members[i].id, result[i].runtime) in before
         && (AsksProvider(members[i]) ==> Standing(before, members[i].id) == members[i].provider)
         && AllDelivered(before, t, members[i].id)
  }

  /** Everything that was pending for the member when it was read has been acknowledged. */
  ghost predicate AllDelivered(before: seq<Event>, t: Token, m: MemberId) {
    exists pending: set<Delivery> ::
        Fetched(t, m, pending) in before && forall d | d in pending :: Acked(t, m, d.id) in before
  }

  ghost predicate FreedTrue(before: seq<Event>, t: Token, launched: seq<Runtime>) {
    && (forall e | e in before && e.LaunchReturned? && e.token == t ::
       e.runtime in launched || WasDropped(before, t, e.runtime))
    && (forall r | r in launched :: Stopped(t, r) in before)
    && (forall e | e in before && e.Stopped? && e.token == t :: e.runtime in launched)
    && (forall e | e in before && e.Dropped? && e.token == t ::
          LaunchReturned(t, e.member, e.runtime) in before && e.flagged && e.current)
    && forall m: MemberId :: Standing(before, m) == None
  }

  ghost predicate AckTrue(before: seq<Event>, t: Token, m: MemberId, d: string) {
    exists r: Runtime :: Accepted(t, m, d, r) in before && LaunchReturned(t, m, r) in before
  }

  ghost predicate EventTrue(before: seq<Event>, e: Event) {
    match e
    case Committed(t, members, result) => CommitTrue(before, t, members, result)
    case Freed(t, launched) => FreedTrue(before, t, launched)
    case Acked(t, m, d) => AckTrue(before, t, m, d)
    case _ => true
  }

  ghost predicate LogTrue(log: seq<Event>) {
    forall i | 0 <= i < |log| :: EventTrue(log[..i], log[i])
  }

  ghost predicate Known(s: System) {
    TokensOk(s) && LogTrue(s.log) && forall o | o in s.attempts :: AttemptKnown(s.db, s.log, s.attempts[o])
  }

  lemma LogTrueNext(log: seq<Event>, e: Event)
    requires LogTrue(log) && EventTrue(log, e)
    ensures LogTrue(log + [e])
  {
    forall i | 0 <= i < |log + [e]| ensures EventTrue((log + [e])[..i], (log + [e])[i]) {
      if i < |log| { assert (log + [e])[..i] == log[..i]; } else { assert (log + [e])[..i] == log; }
    }
  }

  // ---------------------------------------------------------------- growth of the log and of the store

  /** A lease that is over stays over: only a claim revives the flag, and it takes a new epoch. */
  predicate NoRevival(db: Db, db': Db) {
    db'.epoch > db.epoch || (db'.epoch == db.epoch && (db'.live ==> db.live)
        && (db'.state == Resuming ==> db.state == Resuming && db'.owner == db.owner && db'.key == db.key))
  }

  lemma CurrentBefore(db: Db, db': Db, t: Token)
    requires NoRevival(db, db') && t.epoch <= db.epoch && Current(db', t)
    ensures Current(db, t)
  {
  }

  /** `log'` says nothing new about token `t`. */
  ghost predicate SilentOn(log: seq<Event>, log': seq<Event>, t: Token) {
    (forall e | e in log :: e in log') && (forall e | e in log' && e.token == t :: e in log)
  }

  lemma DrainedStable(log: seq<Event>, log': seq<Event>, m: MemberId, t: Token, rest: seq<Delivery>)
    requires Drained(log, m, t, rest) && forall e | e in log :: e in log'
    ensures Drained(log', m, t, rest)
  {
    var pending: set<Delivery> :| Fetched(t, m, pending) in log && AllAcked(log, m, t, pending, rest);
    assert Fetched(t, m, pending) in log' && AllAcked(log', m, t, pending, rest);
  }

  lemma DrainedUpToStable(log: seq<Event>, log': seq<Event>, members: seq<Member>, t: Token, n: nat)
    requires DrainedUpTo(log, members, t, n) && forall e | e in log :: e in log'
    ensures DrainedUpTo(log', members, t, n)
  {
    forall i | 0 <= i < n && i < |members| ensures Drained(log', members[i].id, t, []) {
      DrainedStable(log, log', members[i].id, t, []);
    }
  }

  lemma DeliveringStable(log: seq<Event>, log': seq<Event>, members: seq<Member>, t: Token, i: nat, rest: seq<Delivery>)
    requires i < |members| && Delivering(log, members, t, i, rest) && forall e | e in log :: e in log'
    ensures Delivering(log', members, t, i, rest)
  {
    DrainedUpToStable(log, log', members, t, i);
    DrainedStable(log, log', members[i].id, t, rest);
  }

  lemma PcKnownStable(db: Db, db': Db, log: seq<Event>, log': seq<Event>, a: Attempt, t: Token)
    requires WellFormed(a) && PcKnown(db, log, a, t) && NoRevival(db, db') && (t.epoch <= db.epoch || db' == db)
    requires forall e | e in log :: e in log'
    ensures PcKnown(db', log', a, t)
  {
    if Current(db', t) {
      if db' != db { CurrentBefore(db, db', t); }
      if InCall(a.pc) && a.pc.op.Deliver? {
        DeliveringStable(log, log', a.members, t, a.pc.op.i, if a.pc.Checking? then a.pc.op.rest[1..]
            else a.pc.op.rest);
      } else if a.pc.Acknowledging? {
        DeliveringStable(log, log', a.members, t, a.pc.i, a.pc.rest);
      } else if a.pc.Fetch? {
        DrainedUpToStable(log, log', a.members, t, a.pc.i);
      } else if a.pc.Commit? {
        DrainedUpToStable(log, log', a.members, t, |a.members|);
      }
    }
  }

  /** Another attempt's step, or the world's, leaves what is known of this attempt as it is. */
  lemma AttemptKnownStable(db: Db, db': Db, log: seq<Event>, log': seq<Event>, a: Attempt)
    requires AttemptKnown(db, log, a) && NoRevival(db, db')
    requires a.token.Some? ==> a.token.value.epoch <= db.epoch && SilentOn(log, log', a.token.value)
    ensures AttemptKnown(db', log', a)
  {
    if a.token.Some? && !a.pc.Crashed? {
      PcKnownStable(db, db', log, log', a, a.token.value);
    }
  }

  // ---------------------------------------------------------------- one step of the attempt itself

  /** What a step of an attempt with a token has to establish. */
  ghost predicate StepKnown(db: Db, log: seq<Event>, a: Attempt, e: Effect)
    requires a.token.Some?
  {
    && |e.events| <= 1 && (e.events != [] ==> e.events[0].token == a.token.value && EventTrue(log, e.events[0]))
    && SameIdentity(a, e.attempt) && NoRevival(db, e.db) && AttemptKnown(e.db, log + e.events, e.attempt)
    && !e.attempt.pc.FetchToken? && !e.attempt.pc.Claim?
  }

  lemma LogGrows(log: seq<Event>, events: seq<Event>)
    requires |events| <= 1
    ensures forall e | e in log :: e in log + events
    ensures forall e | e in log + events :: e in log || (events != [] && e == events[0])
  {
  }

  /** The attempt moves to `b`; its launches are the same and the event, if any, is about something else. */
  lemma MoveKnown(db: Db, log: seq<Event>, a: Attempt, e: Effect)
    requires AttemptKnown(db, log, a) && a.token.Some? && !a.pc.Crashed? && NoRevival(db, e.db)
    requires e.db.epoch == db.epoch
    requires |e.events| <= 1 && (e.events != [] ==> e.events[0].token == a.token.value && EventTrue(log, e.events[0]))
    requires e.events != [] ==> !e.events[0].LaunchReturned? && !e.events[0].Stopped? && !e.events[0].Dropped?
    requires var b := e.attempt; SameIdentity(a, b) && b.launched == a.launched && a.arrived.None? && b.arrived.None?
    requires WellFormed(e.attempt) && !e.attempt.pc.FetchToken? && !e.attempt.pc.Claim?
    requires PcKnown(e.db, log + e.events, e.attempt, a.token.value)
    requires TearingDown(a.pc) ==> TearingDown(e.attempt.pc)
    ensures StepKnown(db, log, a, e)
  {
    LogGrows(log, e.events);
  }

  predicate Plain(op: Op) {
    !TearsDown(op) && !op.Deliver?
  }

  /** Points at which nothing is known beyond the launches. */
  predicate PlainPc(pc: Pc) {
    (InCall(pc) ==> Plain(pc.op)) && !pc.Release? && !pc.Acknowledging? && !pc.Fetch? && !pc.Commit?
  }

  lemma PlainMoveKnown(db: Db, log: seq<Event>, a: Attempt, e: Effect)
    requires AttemptKnown(db, log, a) && a.token.Some? && !a.pc.Crashed? && NoRevival(db, e.db)
    requires e.db.epoch == db.epoch
    requires |e.events| <= 1 && (e.events != [] ==> e.events[0].token == a.token.value && EventTrue(log, e.events[0]))
    requires e.events != [] ==> !e.events[0].LaunchReturned? && !e.events[0].Stopped? && !e.events[0].Dropped?
    requires var b := e.attempt; SameIdentity(a, b) && b.launched == a.launched && a.arrived.None? && b.arrived.None?
    requires WellFormed(e.attempt) && !e.attempt.pc.FetchToken? && !e.attempt.pc.Claim?
    requires PlainPc(e.attempt.pc) && (TearingDown(a.pc) ==> TearingDown(e.attempt.pc))
    ensures StepKnown(db, log, a, e)
  {
    MoveKnown(db, log, a, e);
  }

  /** A teardown that has failed once promises nothing about the rest. */
  lemma TornFailKnown(db: Db, log: seq<Event>, a: Attempt, op: Op)
    requires AttemptKnown(db, log, a) && a.token.Some? && At(a, op) && OpOk(a, op) && a.arrived.None?
    requires op.StopLaunched? || op.RollbackLaunched?
    ensures StepKnown(db, log, a, Stay(db, Fail(a, op)))
  {
    var e := Stay(db, Fail(a, op));
    FailWellFormed(a, op);
    assert log + [] == log;
    MoveKnown(db, log, a, e);
  }

  lemma FailKnown(db: Db, log: seq<Event>, a: Attempt, op: Op)
    requires AttemptKnown(db, log, a) && a.token.Some? && At(a, op) && OpOk(a, op) && a.arrived.None?
    ensures StepKnown(db, log, a, Stay(db, Fail(a, op)))
  {
    var e := Stay(db, Fail(a, op));
    FailWellFormed(a, op);
    if op.StopLaunched? || op.RollbackLaunched? {
      TornFailKnown(db, log, a, op);
    } else {
      PlainMoveKnown(db, log, a, e);
    }
  }

  lemma RenewKnown(db: Db, log: seq<Event>, a: Attempt, op: Op, ch: Choice)
    requires AttemptKnown(db, log, a) && a.token.Some? && a.pc == Renew(op) && OpOk(a, op)
    ensures StepKnown(db, log, a, RenewStep(db, a, op, ch))
  {
    var e := RenewStep(db, a, op, ch);
    if e.attempt == Fail(a, op) && e.events == [] {
      FailKnown(db, log, a, op);
    } else {
      LogGrows(log, e.events);
      PcKnownStable(db, db, log, log + e.events, a, a.token.value);
      MoveKnown(db, log, a, e);
    }
  }

  lemma ArriveKnown(db: Db, log: seq<Event>, a: Attempt, i: nat, r: Runtime)
    requires AttemptKnown(db, log, a) && a.token.Some? && a.pc == Running(Launch(i)) && OpOk(a, Launch(i))
    ensures StepKnown(db, log, a,
              Effect(db, a.(arrived := Some(r), pc := Checking(Launch(i))),
              [LaunchReturned(a.token.value, a.members[i].id, r)]))
  {
    LogGrows(log, [LaunchReturned(a.token.value, a.members[i].id, r)]);
  }

  lemma AcceptKnown(db: Db, log: seq<Event>, a: Attempt, i: nat, rest: seq<Delivery>)
    requires AttemptKnown(db, log, a) && a.token.Some? && a.pc == Running(Deliver(i, rest)) && OpOk(a, Deliver(i, rest))
    ensures StepKnown(db, log, a,
              Effect(db, a.(pc := Acknowledging(i, rest)),
              [Accepted(a.token.value, a.members[i].id, rest[0].id, a.launched[i])]))
  {
    var e := Effect(db, a.(pc := Acknowledging(i, rest)),
        [Accepted(a.token.value, a.members[i].id, rest[0].id, a.launched[i])]);
    LogGrows(log, e.events);
    PcKnownStable(db, db, log, log + e.events, a, a.token.value);
    MoveKnown(db, log, a, e);
  }

  /** Any other call returns: what was known before it is still known at its check. */
  lemma ReturnKnown(db: Db, log: seq<Event>, a: Attempt, op: Op, ch: Choice)
    requires AttemptKnown(db, log, a) && a.token.Some? && a.pc == Running(op) && OpOk(a, op)
    requires ch.reply.Returns? && !op.Launch? && !op.Deliver?
    ensures StepKnown(db, log, a, RunningStep(db, a, op, ch))
  {
    var e := RunningStep(db, a, op, ch);
    assert log + [] == log;
    MoveKnown(db, log, a, e);
  }

  lemma DisownedKnown(db: Db, log: seq<Event>, a: Attempt, i: nat)
    requires AttemptKnown(db, log, a) && a.token.Some? && a.pc == Running(Reconcile(i)) && OpOk(a, Reconcile(i))
    ensures StepKnown(db, log, a, Stay(db, a.(pc := ReconcilePc(a, i + 1))))
  {
    var e := Stay(db, a.(pc := ReconcilePc(a, i + 1)));
    PlainMoveKnown(db, log, a, e);
  }

  lemma RunningKnown(db: Db, log: seq<Event>, a: Attempt, op: Op, ch: Choice)
    requires AttemptKnown(db, log, a) && a.token.Some? && a.pc == Running(op) && OpOk(a, op)
    ensures StepKnown(db, log, a, RunningStep(db, a, op, ch))
  {
    if op.Reconcile? && ch.reply.Disowned? {
      DisownedKnown(db, log, a, op.i);
    } else if !ch.reply.Returns? || (op.Deliver? && !ch.accepted) {
      FailKnown(db, log, a, op);
    } else if op.Launch? {
      ArriveKnown(db, log, a, op.i, ch.runtime);
    } else if op.Deliver? {
      AcceptKnown(db, log, a, op.i, op.rest);
    } else {
      ReturnKnown(db, log, a, op, ch);
    }
  }

  lemma KeepKnown(db: Db, log: seq<Event>, a: Attempt, i: nat)
    requires AttemptKnown(db, log, a) && a.token.Some? && a.pc == Checking(Launch(i)) && OpOk(a, Launch(i))
    requires a.arrived.Some?
    ensures StepKnown(db, log, a, Stay(db, Succeed(a, Launch(i))))
  {
    assert log + [] == log;
  }

  lemma DropKnown(db: Db, log: seq<Event>, a: Attempt, i: nat, flagged: bool)
    requires AttemptKnown(db, log, a) && a.token.Some? && a.pc == Checking(Launch(i)) && OpOk(a, Launch(i))
    requires a.arrived.Some?
    requires flagged || !Current(db, a.token.value)
    ensures var t := a.token.value;
            StepKnown(db, log, a, Effect(db, a.(arrived := None, pc := ReadDurable),
                                         [Dropped(t, a.members[i].id, a.arrived.value, flagged, Current(db, t))]))
  {
    var t := a.token.value;
    var e := Dropped(t, a.members[i].id, a.arrived.value, flagged, Current(db, t));
    var log' := log + [e];
    LogGrows(log, [e]);
    assert e in log';
    forall r | r == a.arrived.value ensures WasDropped(log', t, r) { assert e in log' && e.Dropped?; }
  }

  lemma StoppedKnown(db: Db, log: seq<Event>, a: Attempt, i: nat)
    requires AttemptKnown(db, log, a) && a.token.Some? && a.pc == Checking(StopLaunched(i)) && OpOk(a, StopLaunched(i))
    ensures StepKnown(db, log, a, Effect(db, Succeed(a, StopLaunched(i)), Achieved(a, StopLaunched(i))))
  {
    var t := a.token.value;
    var b := Succeed(a, StopLaunched(i));
    var log' := log + [Stopped(t, a.launched[i])];
    LogGrows(log, [Stopped(t, a.launched[i])]);
    assert a.teardownOk ==> StoppedFrom(log', a.launched, t, i);
    AfterStopKnown(db, log', a, i, t);
    StopsKnown(db, log, a, b, t, i);
  }

  lemma AfterStopKnown(db: Db, log: seq<Event>, a: Attempt, i: nat, t: Token)
    requires WellFormed(a) && OpOk(a, StopLaunched(i)) && a.pc == Checking(StopLaunched(i)) && a.token == Some(t)
    requires a.teardownOk ==> StoppedFrom(log, a.launched, t, i)
    ensures var b := Succeed(a, StopLaunched(i));
              WellFormed(b) && PcKnown(db, log, b, t) && TearingDown(b.pc) && SameIdentity(a, b)
  {
  }

  /** One more of the kept launches is stopped. */
  lemma StopsKnown(db: Db, log: seq<Event>, a: Attempt, b: Attempt, t: Token, i: nat)
    requires LaunchesKnown(log, a, t) && DropsKnown(db, log, t) && i < |a.launched|
    requires b.launched == a.launched && b.members == a.members && a.arrived.None? && b.arrived.None?
    requires TearingDown(b.pc)
    ensures var log' := log + [Stopped(t, a.launched[i])];
            LaunchesKnown(log', b, t) && DropsKnown(db, log', t) && Stopped(t, a.launched[i]) in log'
                && forall e | e in log :: e in log'
  {
    var stopped := Stopped(t, a.launched[i]);
    LogGrows(log, [stopped]);
    assert stopped in log + [stopped];
  }

  lemma DrainedOneMore(log: seq<Event>, members: seq<Member>, t: Token, i: nat)
    requires i < |members| && DrainedUpTo(log, members, t, i) && Drained(log, members[i].id, t, [])
    ensures DrainedUpTo(log, members, t, i + 1)
  {
  }

  lemma DeliveredKnown(db: Db, log: seq<Event>, a: Attempt, i: nat, rest: seq<Delivery>)
    requires AttemptKnown(db, log, a) && a.token.Some? && a.pc == Checking(Deliver(i, rest))
    requires OpOk(a, Deliver(i, rest))
    ensures StepKnown(db, log, a, Stay(db, Succeed(a, Deliver(i, rest))))
  {
    var e := Stay(db, Succeed(a, Deliver(i, rest)));
    assert log + [] == log;
    if Current(db, a.token.value) && rest[1..] == [] {
      DrainedOneMore(log, a.members, a.token.value, i);
    }
    MoveKnown(db, log, a, e);
  }

  lemma RolledBackKnown(db: Db, log: seq<Event>, a: Attempt, i: nat)
    requires AttemptKnown(db, log, a) && a.token.Some? && a.pc == Checking(RollbackLaunched(i))
    requires OpOk(a, RollbackLaunched(i))
    ensures StepKnown(db, log, a, Effect(db, Succeed(a, RollbackLaunched(i)), Achieved(a, RollbackLaunched(i))))
  {
    var e := Effect(db, Succeed(a, RollbackLaunched(i)), Achieved(a, RollbackLaunched(i)));
    LogGrows(log, e.events);
    AfterRollbackKnown(db, log + e.events, a, i);
    MoveKnown(db, log, a, e);
  }

  lemma AfterRollbackKnown(db: Db, log: seq<Event>, a: Attempt, i: nat)
    requires WellFormed(a) && OpOk(a, RollbackLaunched(i)) && a.pc == Checking(RollbackLaunched(i)) && a.token.Some?
    requires a.teardownOk ==> StoppedFrom(log, a.launched, a.token.value, i)
    ensures var b := Succeed(a, RollbackLaunched(i));
            WellFormed(b) && PcKnown(db, log, b, a.token.value) && TearingDown(b.pc) && SameIdentity(a, b)
  {
  }

  lemma SucceedKnown(db: Db, log: seq<Event>, a: Attempt, op: Op)
    requires AttemptKnown(db, log, a) && a.token.Some? && a.pc == Checking(op) && OpOk(a, op) && !op.Launch?
    ensures StepKnown(db, log, a, Effect(db, Succeed(a, op), Achieved(a, op)))
  {
    if op.StopLaunched? {
      StoppedKnown(db, log, a, op.i);
    } else if op.Deliver? {
      DeliveredKnown(db, log, a, op.i, op.rest);
    } else if op.RollbackLaunched? {
      RolledBackKnown(db, log, a, op.i);
    } else {
      OtherSucceedsKnown(db, log, a, op);
    }
  }

  lemma OtherSucceedsKnown(db: Db, log: seq<Event>, a: Attempt, op: Op)
    requires AttemptKnown(db, log, a) && a.token.Some? && a.pc == Checking(op) && OpOk(a, op) && !op.Launch?
    requires !op.StopLaunched? && !op.Deliver? && !op.RollbackLaunched?
    ensures StepKnown(db, log, a, Effect(db, Succeed(a, op), Achieved(a, op)))
  {
    var e := Effect(db, Succeed(a, op), Achieved(a, op));
    if op.RollbackGeneration? || op.Reattach? {
      LogGrows(log, e.events);
      MoveKnown(db, log, a, e);
    } else {
      PlainMoveKnown(db, log, a, e);
    }
  }

  lemma CheckingKnown(db: Db, log: seq<Event>, a: Attempt, op: Op, ch: Choice)
    requires AttemptKnown(db, log, a) && a.token.Some? && a.pc == Checking(op) && OpOk(a, op)
    requires op.Launch? ==> a.arrived.Some?
    ensures StepKnown(db, log, a, CheckingStep(db, a, op, ch))
  {
    if op.Launch? {
      if ch.flagged || !Current(db, a.token.value) {
        DropKnown(db, log, a, op.i, ch.flagged);
      } else {
        KeepKnown(db, log, a, op.i);
      }
    } else if ch.flagged || !Current(db, a.token.value) {
      FailKnown(db, log, a, op);
    } else {
      SucceedKnown(db, log, a, op);
    }
  }

  lemma ReadAbandonedKnown(db: Db, log: seq<Event>, a: Attempt, ch: Choice)
    requires AttemptKnown(db, log, a) && a.token.Some? && WellFormed(a) && a.pc.ReadAbandoned?
    ensures StepKnown(db, log, a, ReadAbandonedStep(db, a, ch))
  {
    var e := ReadAbandonedStep(db, a, ch);
    ReadAbandonedMoves(db, a, ch);
    PlainMoveKnown(db, log, a, e);
  }

  lemma ReadAbandonedMoves(db: Db, a: Attempt, ch: Choice)
    requires WellFormed(a) && a.pc.ReadAbandoned?
    ensures var e := ReadAbandonedStep(db, a, ch);
            && e.db == db && e.events == [] && WellFormed(e.attempt) && PlainPc(e.attempt.pc)
            && SameIdentity(a, e.attempt) && !e.attempt.pc.FetchToken? && !e.attempt.pc.Claim?
  {
  }

  lemma ReadDurableKnown(db: Db, log: seq<Event>, a: Attempt)
    requires AttemptKnown(db, log, a) && a.token.Some? && WellFormed(a) && a.pc.ReadDurable?
    ensures StepKnown(db, log, a, ReadDurableStep(db, a))
  {
    var e := ReadDurableStep(db, a);
    assert log + [] == log;
    MoveKnown(db, log, a, e);
  }

  lemma ForgetKnown(db: Db, log: seq<Event>, a: Attempt, ch: Choice)
    requires AttemptKnown(db, log, a) && a.token.Some? && WellFormed(a) && a.pc.ForgetAbandoned?
    ensures StepKnown(db, log, a, ForgetAbandonedStep(db, a, ch))
  {
    var e := ForgetAbandonedStep(db, a, ch);
    ForgetMovesPlainly(db, a, ch);
    PlainMoveKnown(db, log, a, e);
  }

  /** The attempt goes on to a point where nothing is known beyond the launches, and says nothing. */
  predicate MovesPlainly(db: Db, a: Attempt, e: Effect) {
    && NoRevival(db, e.db) && e.db.epoch == db.epoch && e.events == [] && WellFormed(e.attempt) && PlainPc(e.attempt.pc)
    && e.attempt == a.(pc := e.attempt.pc) && !e.attempt.pc.FetchToken? && !e.attempt.pc.Claim?
  }

  lemma ForgetMovesPlainly(db: Db, a: Attempt, ch: Choice)
    requires a.token.Some? && WellFormed(a) && a.pc.ForgetAbandoned?
    ensures MovesPlainly(db, a, ForgetAbandonedStep(db, a, ch))
  {
  }

  lemma RowWriteKnown(db: Db, log: seq<Event>, a: Attempt, ch: Choice)
    requires AttemptKnown(db, log, a) && a.token.Some? && WellFormed(a)
    requires a.pc.Record? || a.pc.SetResuming? || a.pc.SetResumed?
    ensures StepKnown(db, log, a, Step(db, a, ch))
  {
    var e := Step(db, a, ch);
    RowWriteMovesPlainly(db, a, ch);
    PlainMoveKnown(db, log, a, e);
  }

  lemma RowWriteMovesPlainly(db: Db, a: Attempt, ch: Choice)
    requires WellFormed(a) && (a.pc.Record? || a.pc.SetResuming? || a.pc.SetResumed?)
    ensures MovesPlainly(db, a, Step(db, a, ch))
  {
    match a.pc
    case Record(i) => RecordMovesPlainly(db, a, i);
    case SetResuming(i) => ResumingMovesPlainly(db, a, i);
    case SetResumed(i) => ResumedMovesPlainly(db, a, i);
  }

  lemma RecordMovesPlainly(db: Db, a: Attempt, i: nat)
    requires WellFormed(a) && a.pc == Record(i)
    ensures MovesPlainly(db, a, RecordStep(db, a, i))
  {
  }

  lemma ResumingMovesPlainly(db: Db, a: Attempt, i: nat)
    requires WellFormed(a) && a.pc == SetResuming(i)
    ensures MovesPlainly(db, a, SetResumingStep(db, a, i))
  {
  }

  lemma ResumedMovesPlainly(db: Db, a: Attempt, i: nat)
    requires WellFormed(a) && a.pc == SetResumed(i)
    ensures MovesPlainly(db, a, SetResumedStep(db, a, i))
  {
  }

  lemma InstallKnown(db: Db, log: seq<Event>, a: Attempt, ch: Choice)
    requires AttemptKnown(db, log, a) && a.token.Some? && WellFormed(a) && a.pc.Install?
    ensures StepKnown(db, log, a, InstallStep(db, a, ch))
  {
    var e := InstallStep(db, a, ch);
    InstallMovesPlainly(db, a, ch);
    PlainMoveKnown(db, log, a, e);
  }

  lemma InstallMovesPlainly(db: Db, a: Attempt, ch: Choice)
    requires WellFormed(a) && a.pc.Install?
    ensures var e := InstallStep(db, a, ch);
            NoRevival(db, e.db) && e.db.epoch == db.epoch && e.events == []
                && (e.attempt == a.(pc := ReadDurable) || e.attempt == a.(pc := Renew(Reattach)))
  {
    InstallLeavesRows(db, a, |a.launched|);
  }

  /** What was read is what is pending; reading nothing drains the member at once. */
  lemma FetchedDrains(log: seq<Event>, m: MemberId, t: Token, pending: seq<Delivery>, wanted: set<Delivery>)
    requires ListsPending(pending, wanted)
    ensures Drained(log + [Fetched(t, m, wanted)], m, t, pending)
  {
    LogGrows(log, [Fetched(t, m, wanted)]);
    assert Fetched(t, m, wanted) in log + [Fetched(t, m, wanted)]
        && AllAcked(log + [Fetched(t, m, wanted)], m, t, wanted, pending);
  }

  lemma FetchKnown(db: Db, log: seq<Event>, a: Attempt, i: nat, ch: Choice)
    requires AttemptKnown(db, log, a) && a.token.Some? && WellFormed(a) && a.pc == Fetch(i)
    ensures StepKnown(db, log, a, FetchStep(db, a, i, ch))
  {
    var e := FetchStep(db, a, i, ch);
    var m := a.members[i];
    var t := a.token.value;
    var wanted := PendingAfter(db, m.cursor, m.id);
    assert log + [] == log;
    if Current(db, t) && ListsPending(ch.pending, wanted) {
      LogGrows(log, e.events);
      DrainedUpToStable(log, log + e.events, a.members, t, i);
      FetchedDrains(log, m.id, t, ch.pending, wanted);
      if ch.pending == [] { DrainedOneMore(log + e.events, a.members, t, i); }
    }
    MoveKnown(db, log, a, e);
  }

  lemma AcknowledgedDrains(log: seq<Event>, m: MemberId, t: Token, rest: seq<Delivery>)
    requires rest != [] && Drained(log, m, t, rest)
    ensures Drained(log + [Acked(t, m, rest[0].id)], m, t, rest[1..])
  {
    var log' := log + [Acked(t, m, rest[0].id)];
    LogGrows(log, [Acked(t, m, rest[0].id)]);
    var pending: set<Delivery> :| Fetched(t, m, pending) in log && AllAcked(log, m, t, pending, rest);
    assert Acked(t, m, rest[0].id) in log';
    assert Fetched(t, m, pending) in log' && AllAcked(log', m, t, pending, rest[1..]);
  }

  lemma AcknowledgedTrue(log: seq<Event>, a: Attempt, i: nat, rest: seq<Delivery>, t: Token)
    requires rest != [] && i < |a.members| && i < |a.launched| && LaunchesKnown(log, a, t)
    requires Accepted(t, a.members[i].id, rest[0].id, a.launched[i]) in log
    ensures AckTrue(log, t, a.members[i].id, rest[0].id)
  {
    assert LaunchReturned(t, a.members[i].id, a.launched[i]) in log;
  }

  lemma AcknowledgeKnown(db: Db, log: seq<Event>, a: Attempt, i: nat, rest: seq<Delivery>)
    requires AttemptKnown(db, log, a) && a.token.Some? && WellFormed(a) && a.pc == Acknowledging(i, rest)
    ensures StepKnown(db, log, a, AcknowledgeStep(db, a, i, rest))
  {
    var e := AcknowledgeStep(db, a, i, rest);
    var t := a.token.value;
    assert log + [] == log;
    if e.events != [] {
      LogGrows(log, e.events);
      AcknowledgedTrue(log, a, i, rest, t);
      DrainedUpToStable(log, log + e.events, a.members, t, i);
      AcknowledgedDrains(log, a.members[i].id, t, rest);
    }
    MoveKnown(db, log, a, e);
  }

  lemma DrainedIsDelivered(log: seq<Event>, m: MemberId, t: Token)
    requires Drained(log, m, t, [])
    ensures AllDelivered(log, t, m)
  {
    var pending: set<Delivery> :| Fetched(t, m, pending) in log && AllAcked(log, m, t, pending, []);
    assert Fetched(t, m, pending) in log && forall d | d in pending :: Acked(t, m, d.id) in log;
  }

  lemma CommitIsTrue(db: Db, log: seq<Event>, a: Attempt)
    requires AttemptKnown(db, log, a) && AttemptOk(db, a, log) && a.token.Some? && a.pc.Commit?
    requires Current(db, a.token.value)
    ensures CommitTrue(log, a.token.value, a.members, Outcomes(a))
  {
    var t := a.token.value;
    forall i | 0 <= i < |a.members| ensures AllDelivered(log, t, a.members[i].id) {
      DrainedIsDelivered(log, a.members[i].id, t);
    }
    assert Owns(db, a);
  }

  lemma CommitMoves(db: Db, log: seq<Event>, a: Attempt, ch: Choice)
    requires AttemptKnown(db, log, a) && a.token.Some? && WellFormed(a) && a.pc.Commit?
    requires Current(db, a.token.value) ==> EventTrue(log, Committed(a.token.value, a.members, Outcomes(a)))
    ensures StepKnown(db, log, a, CommitStep(db, a, ch))
  {
    var e := CommitStep(db, a, ch);
    PlainMoveKnown(db, log, a, e);
  }

  lemma CommitKnown(db: Db, log: seq<Event>, a: Attempt, ch: Choice)
    requires AttemptKnown(db, log, a) && AttemptOk(db, a, log) && a.token.Some? && a.pc.Commit?
    ensures StepKnown(db, log, a, CommitStep(db, a, ch))
  {
    if Current(db, a.token.value) {
      CommitIsTrue(db, log, a);
    }
    CommitMoves(db, log, a, ch);
  }

  lemma FreedIsTrue(db: Db, log: seq<Event>, a: Attempt)
    requires AttemptKnown(db, log, a) && AttemptOk(db, a, log) && DbOk(db) && StandingOk(db, log)
    requires a.token.Some? && a.pc.Release? && Current(db, a.token.value)
    ensures FreedTrue(log, a.token.value, a.launched)
  {
    assert Owns(db, a);
    TeardownSettles(db, a, log);
  }

  lemma ReleaseMoves(db: Db, log: seq<Event>, a: Attempt, ch: Choice)
    requires AttemptKnown(db, log, a) && a.token.Some? && a.pc.Release?
    requires Current(db, a.token.value) ==> EventTrue(log, Freed(a.token.value, a.launched))
    ensures StepKnown(db, log, a, ReleaseStep(db, a, ch))
  {
    var e := ReleaseStep(db, a, ch);
    PlainMoveKnown(db, log, a, e);
  }

  lemma ReleaseKnown(db: Db, log: seq<Event>, a: Attempt, ch: Choice)
    requires AttemptKnown(db, log, a) && AttemptOk(db, a, log) && DbOk(db) && StandingOk(db, log) && a.token.Some?
    requires a.pc.Release?
    ensures StepKnown(db, log, a, ReleaseStep(db, a, ch))
  {
    if Current(db, a.token.value) {
      FreedIsTrue(db, log, a);
    }
    ReleaseMoves(db, log, a, ch);
  }

  lemma CallKnown(db: Db, log: seq<Event>, a: Attempt, ch: Choice)
    requires AttemptKnown(db, log, a) && a.token.Some? && WellFormed(a)
    requires a.pc.Renew? || a.pc.Running? || a.pc.Checking?
    ensures StepKnown(db, log, a, Step(db, a, ch))
  {
    match a.pc
    case Renew(op) => RenewKnown(db, log, a, op, ch);
    case Running(op) => RunningKnown(db, log, a, op, ch);
    case Checking(op) => CheckingKnown(db, log, a, op, ch);
  }

  lemma RowStepKnown(db: Db, log: seq<Event>, a: Attempt, ch: Choice)
    requires AttemptKnown(db, log, a) && a.token.Some? && WellFormed(a)
    requires a.pc.Record? || a.pc.SetResuming? || a.pc.SetResumed? || a.pc.ReadAbandoned? || a.pc.ReadDurable?
               || a.pc.ForgetAbandoned?
    ensures StepKnown(db, log, a, Step(db, a, ch))
  {
    if a.pc.ForgetAbandoned? {
      ForgetKnown(db, log, a, ch);
    } else if a.pc.ReadAbandoned? {
      ReadAbandonedKnown(db, log, a, ch);
    } else if a.pc.ReadDurable? {
      ReadDurableKnown(db, log, a);
    } else {
      RowWriteKnown(db, log, a, ch);
    }
  }

  lemma ClosingKnown(s: System, o: Owner, ch: Choice)
    requires Safe(s) && o in s.attempts && AttemptKnown(s.db, s.log, s.attempts[o]) && s.attempts[o].token.Some?
    requires WellFormed(s.attempts[o])
    requires var pc := s.attempts[o].pc; pc.Install? || pc.Commit? || pc.Release?
    ensures StepKnown(s.db, s.log, s.attempts[o], Step(s.db, s.attempts[o], ch))
  {
    var a := s.attempts[o];
    match a.pc
    case Install => InstallKnown(s.db, s.log, a, ch);
    case Commit => CommitKnown(s.db, s.log, a, ch);
    case Release => ReleaseKnown(s.db, s.log, a, ch);
  }

  lemma TokenStepKnown(s: System, o: Owner, ch: Choice)
    requires Safe(s) && o in s.attempts && AttemptKnown(s.db, s.log, s.attempts[o]) && s.attempts[o].token.Some?
    requires WellFormed(s.attempts[o])
    requires var pc := s.attempts[o].pc; !pc.Claim? && !pc.FetchToken? && !pc.Finished? && !pc.Failed? && !pc.Crashed?
    ensures StepKnown(s.db, s.log, s.attempts[o], Step(s.db, s.attempts[o], ch))
  {
    var pc := s.attempts[o].pc;
    if pc.Renew? || pc.Running? || pc.Checking? {
      CallKnown(s.db, s.log, s.attempts[o], ch);
    } else if pc.Fetch? {
      FetchKnown(s.db, s.log, s.attempts[o], pc.i, ch);
    } else if pc.Acknowledging? {
      AcknowledgeKnown(s.db, s.log, s.attempts[o], pc.i, pc.rest);
    } else if pc.Install? || pc.Commit? || pc.Release? {
      ClosingKnown(s, o, ch);
    } else {
      RowStepKnown(s.db, s.log, s.attempts[o], ch);
    }
  }

  // ---------------------------------------------------------------- the whole system

  lemma OthersKnown(s: System, o: Owner, db': Db, log': seq<Event>)
    requires Known(s) && NoRevival(s.db, db') && forall e | e in s.log :: e in log'
    requires forall e | e in log' :: e in s.log || e.token.owner == o
    ensures forall p | p in s.attempts && p != o :: AttemptKnown(db', log', s.attempts[p])
  {
    forall p | p in s.attempts && p != o ensures AttemptKnown(db', log', s.attempts[p]) {
      AttemptKnownStable(s.db, db', s.log, log', s.attempts[p]);
    }
  }

  lemma TokenStepKeepsKnown(s: System, o: Owner, ch: Choice)
    requires Safe(s) && Known(s) && o in s.attempts && s.attempts[o].token.Some? && WellFormed(s.attempts[o])
    requires var pc := s.attempts[o].pc; !pc.Claim? && !pc.FetchToken? && !pc.Finished? && !pc.Failed? && !pc.Crashed?
    ensures Known(Next(s, Advance(o, ch)))
  {
    TokenStepKnown(s, o, ch);
    var e := Step(s.db, s.attempts[o], ch);
    var s' := Next(s, Advance(o, ch));
    LogGrows(s.log, e.events);
    OthersKnown(s, o, e.db, s'.log);
    if e.events == [] { assert s'.log == s.log; } else {
      assert e.events == [e.events[0]];
      LogTrueNext(s.log, e.events[0]);
    }
    TokensKept(s, o, e);
  }

  lemma TokensKept(s: System, o: Owner, e: Effect)
    requires TokensOk(s) && o in s.attempts && s.attempts[o].token.Some? && StepKnown(s.db, s.log, s.attempts[o], e)
    ensures TokensOk(System(e.db, s.attempts[o := e.attempt], s.log + e.events))
  {
    LogGrows(s.log, e.events);
  }

  /** A claim takes a new epoch, which nobody has used yet. */
  lemma ClaimKeepsKnown(s: System, o: Owner, ch: Choice)
    requires Safe(s) && Known(s) && o in s.attempts && s.attempts[o].pc.Claim? && WellFormed(s.attempts[o])
    ensures Known(Next(s, Advance(o, ch)))
  {
    var a := s.attempts[o];
    assert a.owner == o;
    var e := ClaimStep(s.db, a);
    assert s.log + [] == s.log;
    OthersKnown(s, o, e.db, s.log);
    ClaimKeepsTokens(s, o);
  }

  lemma ClaimKeepsTokens(s: System, o: Owner)
    requires TokensOk(s) && o in s.attempts && s.attempts[o].pc.Claim? && s.attempts[o].owner == o
    ensures var e := ClaimStep(s.db, s.attempts[o]); TokensOk(System(e.db, s.attempts[o := e.attempt], s.log))
  {
  }

  /** Reading the token back only finds one's own. */
  lemma FetchTokenKeepsKnown(s: System, o: Owner, ch: Choice)
    requires Safe(s) && Known(s) && o in s.attempts && s.attempts[o].pc.FetchToken? && WellFormed(s.attempts[o])
    ensures Known(Next(s, Advance(o, ch)))
  {
    var a := s.attempts[o];
    var e := FetchTokenStep(s.db, a);
    assert a.owner == o;
    assert s.log + [] == s.log;
    OthersKnown(s, o, s.db, s.log);
    FetchedTokenKnown(s, o);
    FetchKeepsTokens(s, o);
  }

  lemma FetchKeepsTokens(s: System, o: Owner)
    requires TokensOk(s) && o in s.attempts && s.attempts[o].pc.FetchToken? && s.attempts[o].owner == o
    ensures var e := FetchTokenStep(s.db, s.attempts[o]); TokensOk(System(s.db, s.attempts[o := e.attempt], s.log))
  {
  }

  lemma FetchedTokenKnown(s: System, o: Owner)
    requires Known(s) && o in s.attempts && s.attempts[o].owner == o && s.attempts[o].pc.FetchToken?
    requires WellFormed(s.attempts[o])
    ensures AttemptKnown(s.db, s.log, FetchTokenStep(s.db, s.attempts[o]).attempt)
  {
  }

  lemma IdleKeepsKnown(s: System, o: Owner, ch: Choice)
    requires Known(s) && o in s.attempts
    requires var pc := s.attempts[o].pc; pc.Finished? || pc.Failed? || pc.Crashed?
    ensures Known(Next(s, Advance(o, ch)))
  {
    assert s.log + [] == s.log;
    assert s.attempts[o := s.attempts[o]] == s.attempts;
    assert Next(s, Advance(o, ch)) == s;
  }

  lemma ExternalKeepsKnown(s: System, db': Db)
    requires Known(s) && NoRevival(s.db, db') && db'.epoch == s.db.epoch
    requires db'.state == Resuming ==> s.db.state == Resuming && db'.owner == s.db.owner
    ensures Known(s.(db := db'))
  {
    forall p | p in s.attempts ensures AttemptKnown(db', s.log, s.attempts[p]) {
      AttemptKnownStable(s.db, db', s.log, s.log, s.attempts[p]);
    }
  }

  lemma NextKnown(s: System, action: Action)
    requires Safe(s) && Known(s)
    ensures Known(Next(s, action))
  {
    match action
    case Suspend => ExternalKeepsKnown(s, Next(s, action).db);
    case Enqueue(d) => ExternalKeepsKnown(s, Next(s, action).db);
    case Expire => ExternalKeepsKnown(s, Next(s, action).db);
    case Begin(owner, key, generation, members) => BeginKeepsKnown(s, owner, key, generation, members);
    case Advance(owner, ch) => AdvanceKeepsKnown(s, owner, ch);
    case Crash(owner) => if owner in s.attempts { CrashKeepsKnown(s, owner); }
  }

  lemma BeginKeepsKnown(s: System, owner: Owner, key: Key, generation: nat, members: seq<Member>)
    requires Known(s)
    ensures Known(Next(s, Begin(owner, key, generation, members)))
  {
  }

  lemma CrashKeepsKnown(s: System, owner: Owner)
    requires Known(s) && owner in s.attempts
    ensures Known(Next(s, Crash(owner)))
  {
  }

  lemma AdvanceKeepsKnown(s: System, owner: Owner, ch: Choice)
    requires Safe(s) && Known(s)
    ensures Known(Next(s, Advance(owner, ch)))
  {
      if owner in s.attempts && WellFormed(s.attempts[owner]) {
        var pc := s.attempts[owner].pc;
        if pc.Claim? {
          ClaimKeepsKnown(s, owner, ch);
        } else if pc.FetchToken? {
          FetchTokenKeepsKnown(s, owner, ch);
        } else if pc.Finished? || pc.Failed? || pc.Crashed? {
          IdleKeepsKnown(s, owner, ch);
        } else {
          TokenStepKeepsKnown(s, owner, ch);
        }
      }
  }

  lemma {:induction false} RunKnown(s: System, actions: seq<Action>)
    requires Start(s)
    ensures Safe(Run(s, actions)) && Known(Run(s, actions))
  {
    RunSafe(s, actions);
    if actions != [] {
      RunKnown(s, actions[..|actions| - 1]);
      NextKnown(Run(s, actions[..|actions| - 1]), actions[|actions| - 1]);
    }
  }

  // ---------------------------------------------------------------- what a commit and a release mean

  /**
   A fresh success. The saved result has exactly one resumed outcome per member, in order, each with
   a runtime whose launch returned to this attempt; every conversation it asked for is resumed and
   standing; and every delivery that was pending for a member was acknowledged.
   */
  lemma CommitMeans(start: System, actions: seq<Action>, i: nat)
    requires Start(start)
    requires var log := Run(start, actions).log; i < |log| && log[i].Committed?
    ensures var log := Run(start, actions).log; CommitTrue(log[..i], log[i].token, log[i].members, log[i].result)
  {
    RunKnown(start, actions);
    var log := Run(start, actions).log;
    assert EventTrue(log[..i], log[i]);
  }

  /** A delivery is acknowledged only after the runtime launched for its recipient accepted it. */
  lemma AcknowledgedAfterAccepted(start: System, actions: seq<Action>, i: nat)
    requires Start(start)
    requires var log := Run(start, actions).log; i < |log| && log[i].Acked?
    ensures var log := Run(start, actions).log; AckTrue(log[..i], log[i].token, log[i].member, log[i].delivery)
  {
    RunKnown(start, actions);
    var log := Run(start, actions).log;
    assert EventTrue(log[..i], log[i]);
  }

  ghost predicate EveryLaunchStopped(before: seq<Event>, t: Token) {
    forall e | e in before && e.LaunchReturned? && e.token == t :: Stopped(t, e.runtime) in before
  }

  /** The attempt threw no launch away, except of a runtime that it also kept. */
  ghost predicate NothingLost(before: seq<Event>, t: Token, launched: seq<Runtime>) {
    forall e | e in before && e.Dropped? && e.token == t :: e.runtime in launched
  }

  /**
   A failure that gives the claim back. Nothing stands, so every resumed conversation was rolled back;
   and every runtime whose launch returned to this attempt was stopped under its lease, if and only if
   the attempt dropped no launch. It can only have dropped one by mistake: the heartbeat had raised its
   flag although the token was still current.
   */
  lemma ReleaseMeans(start: System, actions: seq<Action>, i: nat)
    requires Start(start)
    requires var log := Run(start, actions).log; i < |log| && log[i].Freed?
    ensures var log := Run(start, actions).log;
            var t := log[i].token;
            && (forall m: MemberId :: Standing(log[..i], m) == None)
            && (EveryLaunchStopped(log[..i], t) <==> NothingLost(log[..i], t, log[i].launched))
            && (forall e | e in log[..i] && e.Dropped? && e.token == t ::
                  e.flagged && e.current && LaunchReturned(t, e.member, e.runtime) in log[..i])
  {
    RunKnown(start, actions);
    var log := Run(start, actions).log;
    assert EventTrue(log[..i], log[i]);
    FreedStops(log[..i], log[i].token, log[i].launched);
  }

  lemma FreedStops(before: seq<Event>, t: Token, launched: seq<Runtime>)
    requires FreedTrue(before, t, launched)
    ensures EveryLaunchStopped(before, t) <==> NothingLost(before, t, launched)
  {
    if EveryLaunchStopped(before, t) {
      forall e | e in before && e.Dropped? && e.token == t ensures e.runtime in launched {
        assert LaunchReturned(t, e.member, e.runtime) in before;
        assert Stopped(t, e.runtime) in before;
      }
    }
  }

  /** One step says `Committed`, clears the launch rows, saves the result and activates the channel. */
  ghost predicate CommitsAs(s: System, s': System, t: Token, members: seq<Member>, result: seq<Outcome>) {
    && s'.log == s.log + [Committed(t, members, result)] && Current(s.db, t)
    && t.key in s'.db.results && s'.db.results[t.key] == result && s'.db.launches == map[] && s'.db.state == Active
  }

  lemma CallsLeaveTheStore(db: Db, a: Attempt, ch: Choice)
    requires WellFormed(a) && (a.pc.Renew? || a.pc.Running? || a.pc.Checking?)
    ensures Step(db, a, ch).db == db
  {
  }

  lemma OnlyCommitActivates(db: Db, a: Attempt, ch: Choice)
    requires WellFormed(a) && db.state != Active && Step(db, a, ch).db.state == Active
    ensures a.pc.Commit? && Current(db, a.token.value) && ch.calls >= 3
  {
    if a.pc.Renew? || a.pc.Running? || a.pc.Checking? {
      CallsLeaveTheStore(db, a, ch);
    } else if a.pc.Install? {
      InstallLeavesRows(db, a, |a.launched|);
    }
  }

  /** The channel becomes active only by a commit: clear, save and activate happen at once or not at all. */
  lemma ActivationIsAtomic(start: System, actions: seq<Action>, action: Action)
    requires Start(start) && Run(start, actions).db.state != Active
    requires Next(Run(start, actions), action).db.state == Active
    ensures var s := Run(start, actions);
            exists t: Token, members: seq<Member>, result: seq<Outcome> ::
                CommitsAs(s, Next(s, action), t, members, result)
  {
    RunSafe(start, actions);
    ActivationCommits(Run(start, actions), action);
  }

  lemma ActivationCommits(s: System, action: Action)
    requires Safe(s) && s.db.state != Active && Next(s, action).db.state == Active
    ensures exists t: Token, members: seq<Member>, result: seq<Outcome> ::
              CommitsAs(s, Next(s, action), t, members, result)
  {
    var a := s.attempts[action.owner];
    OnlyCommitActivates(s.db, a, action.choice);
    assert Cleared(s.db, a.generation).launches == map[];
    assert CommitsAs(s, Next(s, action), a.token.value, a.members, Outcomes(a));
  }

  lemma RunFurther(start: System, before: seq<Action>, more: seq<Action>)
    requires more != []
    ensures Run(start, before + more) == Next(Run(start, before + more[..|more| - 1]), more[|more| - 1])
  {
    assert (before + more)[..|before + more| - 1] == before + more[..|more| - 1];
  }

  // ---------------------------------------------------------------- the saved result

  /** Every call that has finished in `s'` had finished in `s` already, or was given what is saved under its key. */
  ghost predicate GivenTheSaved(s: System, s': System) {
    forall o | o in s'.attempts && s'.attempts[o].pc.Finished? ::
      || (o in s.attempts && s.attempts[o] == s'.attempts[o])
      || (s'.attempts[o].key in s.db.results && s'.attempts[o].pc.result == s.db.results[s'.attempts[o].key])
  }

  /** While the channel is active every token is stale, so a call can only fail or be given the saved result. */
  lemma ActiveStep(db: Db, a: Attempt, ch: Choice)
    requires WellFormed(a) && db.state == Active
    ensures var e := Step(db, a, ch);
            && e.db.state == Active && e.db.results == db.results
            && (e.attempt.pc.Finished? ==>
                  e.attempt == a || (a.key in db.results && e.attempt == a.(pc := Finished(db.results[a.key]))))
  {
    if a.pc.Renew? || a.pc.Running? || a.pc.Checking? {
      CallsLeaveTheStore(db, a, ch);
      CallsDoNotFinish(db, a, ch);
    } else if !a.pc.Claim? {
      ActiveWrite(db, a, ch);
    }
  }

  lemma ActiveWrite(db: Db, a: Attempt, ch: Choice)
    requires WellFormed(a) && db.state == Active && !a.pc.Claim? && !a.pc.Renew? && !a.pc.Running? && !a.pc.Checking?
    ensures var e := Step(db, a, ch);
            e.db.state == Active && e.db.results == db.results && (e.attempt.pc.Finished? ==> e.attempt == a)
  {
    if a.pc.Install? {
      InstallLeavesRows(db, a, |a.launched|);
    } else
        if a.pc.Record? || a.pc.SetResuming? || a.pc.SetResumed? || a.pc.ForgetAbandoned? || a.pc.Commit?
        || a.pc.Release? {
      ActiveRefuses(db, a, ch);
    } else {
      ActiveReads(db, a, ch);
    }
  }

  lemma ActiveRefuses(db: Db, a: Attempt, ch: Choice)
    requires WellFormed(a) && db.state == Active
    requires a.pc.Record? || a.pc.SetResuming? || a.pc.SetResumed? || a.pc.ForgetAbandoned? || a.pc.Commit?
               || a.pc.Release?
    ensures Step(db, a, ch).db == db && !Step(db, a, ch).attempt.pc.Finished?
  {
  }

  lemma ActiveReads(db: Db, a: Attempt, ch: Choice)
    requires WellFormed(a) && db.state == Active
    requires var pc := a.pc;
             || pc.FetchToken? || pc.ReadAbandoned? || pc.ReadDurable? || pc.Fetch? || pc.Acknowledging?
             || pc.Finished? || pc.Failed? || pc.Crashed?
    ensures var e := Step(db, a, ch);
            e.db == db && (e.attempt.pc.Finished? ==> e.attempt == a)
  {
  }

  lemma CallsDoNotFinish(db: Db, a: Attempt, ch: Choice)
    requires WellFormed(a) && (a.pc.Renew? || a.pc.Running? || a.pc.Checking?)
    ensures !Step(db, a, ch).attempt.pc.Finished?
  {
    FailureDoesNotFinish(a, a.pc.op);
    if a.pc.Checking? { SuccessDoesNotFinish(a, a.pc.op); }
  }

  lemma FailureDoesNotFinish(a: Attempt, op: Op)
    requires OpOk(a, op)
    ensures !Fail(a, op).pc.Finished?
  {
  }

  lemma SuccessDoesNotFinish(a: Attempt, op: Op)
    requires OpOk(a, op) && (op.Launch? ==> a.arrived.Some?)
    ensures !Succeed(a, op).pc.Finished?
  {
  }

  lemma ActiveStays(s0: System, s: System, action: Action)
    requires s.db.state == Active && s.db.results == s0.db.results && GivenTheSaved(s0, s) && !action.Suspend?
    ensures var s' := Next(s, action); s'.db.state == Active && s'.db.results == s0.db.results && GivenTheSaved(s0, s')
  {
    if action.Advance? && action.owner in s.attempts && WellFormed(s.attempts[action.owner]) {
      ActiveStep(s.db, s.attempts[action.owner], action.choice);
    }
  }

  /**
   Idempotent success. From a commit until the channel is suspended again, whatever calls are made or
   still under way: the channel stays active, no saved result changes, and every call that finishes is
   given the result saved under its own key.
   */
  lemma {:induction false} SavedResultIsReturned(start: System, before: seq<Action>, more: seq<Action>)
    requires Run(start, before).db.state == Active && forall i | 0 <= i < |more| :: !more[i].Suspend?
    ensures var s, s' := Run(start, before), Run(start, before + more);
            s'.db.state == Active && s'.db.results == s.db.results && GivenTheSaved(s, s')
    decreases |more|
  {
    if more == [] {
      assert before + more == before;
    } else {
      SavedResultIsReturned(start, before, more[..|more| - 1]);
      RunFurther(start, before, more);
      ActiveStays(Run(start, before), Run(start, before + more[..|more| - 1]), more[|more| - 1]);
    }
  }

  // ---------------------------------------------------------------- stale tokens

  lemma StaleStays(s: System, action: Action, t: Token)
    requires t.epoch <= s.db.epoch && !Current(s.db, t)
    ensures var s' := Next(s, action); t.epoch <= s'.db.epoch && !Current(s'.db, t)
  {
    if action.Advance? && action.owner in s.attempts && WellFormed(s.attempts[action.owner]) {
      StepRevivesNothing(s.db, s.attempts[action.owner], action.choice);
    }
  }

  /** Only a claim revives the lease, and it takes a new epoch. */
  lemma StepRevivesNothing(db: Db, a: Attempt, ch: Choice)
    requires WellFormed(a)
    ensures NoRevival(db, Step(db, a, ch).db)
  {
    if a.pc.Renew? || a.pc.Running? || a.pc.Checking? {
      CallsLeaveTheStore(db, a, ch);
    } else if a.pc.Install? {
      InstallLeavesRows(db, a, |a.launched|);
    } else if a.pc.Commit? || a.pc.Release? || a.pc.ForgetAbandoned? {
      TransactionRevivesNothing(db, a, ch);
    } else {
      OtherRevivesNothing(db, a, ch);
    }
  }

  lemma TransactionRevivesNothing(db: Db, a: Attempt, ch: Choice)
    requires WellFormed(a) && (a.pc.Commit? || a.pc.Release? || a.pc.ForgetAbandoned?)
    ensures NoRevival(db, Step(db, a, ch).db)
  {
  }

  lemma OtherRevivesNothing(db: Db, a: Attempt, ch: Choice)
    requires WellFormed(a) && !a.pc.Renew? && !a.pc.Running? && !a.pc.Checking? && !a.pc.Install?
    requires !a.pc.Commit? && !a.pc.Release? && !a.pc.ForgetAbandoned?
    ensures NoRevival(db, Step(db, a, ch).db)
  {
  }

  /** A token that is no longer current never becomes current again, so its writes are refused for good. */
  lemma {:induction false} StaleForever(start: System, before: seq<Action>, more: seq<Action>, t: Token)
    requires t.epoch <= Run(start, before).db.epoch && !Current(Run(start, before).db, t)
    ensures t.epoch <= Run(start, before + more).db.epoch && !Current(Run(start, before + more).db, t)
    decreases |more|
  {
    if more == [] {
      assert before + more == before;
    } else {
      StaleForever(start, before, more[..|more| - 1], t);
      RunFurther(start, before, more);
      StaleStays(Run(start, before + more[..|more| - 1]), more[|more| - 1], t);
    }
  }
}
