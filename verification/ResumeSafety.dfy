/**
 A provider conversation is resumed at most once: whatever crashes and takeovers happen, a second
 `provider.resume` for a member comes only after the first was rolled back or committed.
 */
module ResumeSafety {
  import opened Options
  import opened BlueprintStore
  import opened ResumeSaga

  // ---------------------------------------------------------------- what the log says is standing

  /** The conversation that was last resumed for `m` and neither rolled back nor committed since. */
  function Standing(log: seq<Event>, m: MemberId): Option<Conversation> {
    if log == [] then None
    else
      var last := log[|log| - 1];
      if last.ResumeCalled? && last.member == m then Some(last.conversation)
      else if last.RolledBack? && last.member == m then None
      else if last.Committed? then None
      else Standing(log[..|log| - 1], m)
  }

  /** Events that a standing conversation does not depend on. */
  predicate Neutral(e: Event) {
    !e.ResumeCalled? && !e.RolledBack? && !e.Committed?
  }

  lemma StandingNext(log: seq<Event>, e: Event, m: MemberId)
    ensures Standing(log + [e], m) ==
            if e.ResumeCalled? && e.member == m then Some(e.conversation)
            else if (e.RolledBack? && e.member == m) || e.Committed? then None
            else Standing(log, m)
  {
    assert (log + [e])[..|log|] == log;
  }

  /** What each event of the log had to find: nothing standing before a resume, only its own before a rollback. */
  ghost predicate EventSafe(before: seq<Event>, e: Event) {
    match e
    case ResumeCalled(_, m, _) => Standing(before, m) == None
    case RolledBack(_, m, c) => Standing(before, m) == None || Standing(before, m) == Some(c)
    case _ => true
  }

  ghost predicate LogSafe(log: seq<Event>) {
    forall i | 0 <= i < |log| :: EventSafe(log[..i], log[i])
  }

  lemma LogSafeNext(log: seq<Event>, e: Event)
    requires LogSafe(log) && EventSafe(log, e)
    ensures LogSafe(log + [e])
  {
    forall i | 0 <= i < |log + [e]| ensures EventSafe((log + [e])[..i], (log + [e])[i]) {
      if i < |log| { assert (log + [e])[..i] == log[..i]; } else { assert (log + [e])[..i] == log; }
    }
  }

  // ---------------------------------------------------------------- the invariant

  /** The attempt's token is the one in the store, whether or not its lease is still alive. */
  predicate Owns(db: Db, a: Attempt) {
    && !a.pc.Finished? && !a.pc.Failed? && !a.pc.Crashed?
    && a.token.Some? && db.state == Resuming && db.owner == Some(a.owner) && db.key == Some(a.key)
       && db.epoch == a.token.value.epoch
  }

  predicate DbOk(db: Db) {
    && (db.state != Resuming ==> db.launches == map[])
    && forall k | k in db.launches ::
       k.1 == db.generation && (db.launches[k].phase != Launched ==> db.launches[k].provider.Some?)
  }

  function Slot(a: Attempt, i: nat): (MemberId, nat)
    requires i < |a.members|
  {
    (a.members[i].id, a.generation)
  }

  /** The attempt has written that it is resuming member `i`, and has not yet written how that went. */
  predicate Armed(a: Attempt, i: nat) {
    a.pc == Renew(ProviderResume(i)) || a.pc == Running(ProviderResume(i)) || a.pc == Checking(ProviderResume(i))
        || a.pc == SetResumed(i)
  }

  /** Even a stale attempt that may be inside `provider.resume` still has its row in the store. */
  predicate ArmedOk(db: Db, a: Attempt) {
    forall i | 0 <= i < |a.members| && Armed(a, i) ::
      && db.state == Resuming && a.generation == db.generation && Slot(a, i) in db.launches
      && db.launches[Slot(a, i)].phase == ProviderResuming && db.launches[Slot(a, i)].provider == a.members[i].provider
  }

  function DonePhase(m: Member): Phase {
    if m.provider.Some? then ProviderResumed else Launched
  }

  /** The rows of the first `n` members, each launched and resumed. */
  function Rows(members: seq<Member>, launched: seq<Runtime>, generation: nat, n: nat): Launches
    requires n <= |members| && n <= |launched|
  {
    if n == 0 then map[]
    else Rows(members, launched, generation, n - 1)[(members[n - 1].id, generation) :=
           Row(launched[n - 1], members[n - 1].provider, DonePhase(members[n - 1]))]
  }

  function RowsWith(a: Attempt, n: nat, phase: Phase): Launches
    requires n < |a.members| && n < |a.launched|
  {
    Rows(a.members, a.launched, a.generation, n)[Slot(a, n) := Row(a.launched[n], a.members[n].provider, phase)]
  }

  /** The conversations of the first `n` members are resumed and standing. */
  ghost predicate AllStanding(a: Attempt, n: nat, log: seq<Event>) {
    forall j | 0 <= j < n && j < |a.members|
        && AsksProvider(a.members[j]) :: Standing(log, a.members[j].id) == a.members[j].provider
  }

  ghost predicate RecoveredUpTo(launches: Launches, a: Attempt, n: nat, log: seq<Event>) {
    && n <= |a.abandoned| && Lists(a.abandoned, launches, a.generation)
    && forall j | 0 <= j < n :: a.abandoned[j].1.phase != ProviderResuming && Standing(log, a.abandoned[j].0) == None
  }

  /** Every row belongs to a launched member. */
  ghost predicate RowsWithin(launches: Launches, a: Attempt) {
    forall k | k in launches ::
        exists j ::
        0 <= j < |a.launched| && j < |a.members| && k == Slot(a, j) && launches[k].provider == a.members[j].provider
  }

  /** From member `n` on, whatever was resumed has been rolled back. */
  ghost predicate TornDown(a: Attempt, n: nat, log: seq<Event>) {
    forall j | n <= j < |a.launched| && j < |a.members|
        && LaunchedNeedsRollback(a, j) :: Standing(log, a.members[j].id) == None
  }

  ghost predicate TeardownOk(launches: Launches, a: Attempt, n: nat, log: seq<Event>) {
    a.durable == launches && RowsWithin(launches, a) && (a.teardownOk ==> TornDown(a, n, log))
  }

  /** Every member is launched, recorded and resumed. */
  ghost predicate AllResumed(launches: Launches, a: Attempt, log: seq<Event>)
    requires |a.launched| == |a.members|
  {
    launches == Rows(a.members, a.launched, a.generation, |a.members|) && AllStanding(a, |a.members|, log)
  }

  ghost predicate OpSafe(launches: Launches, a: Attempt, op: Op, log: seq<Event>)
    requires OpOk(a, op)
  {
    && (op.StopAbandoned? || op.RollbackAbandoned? ==>
          RecoveredUpTo(launches, a, op.i, log) && a.abandoned[op.i].1.phase != ProviderResuming)
    && (op.RollbackAbandonedGeneration? ==> RecoveredUpTo(launches, a, |a.abandoned|, log))
    && (op.Reconcile? ==> launches == map[])
    && (op.Launch? ==> launches == Rows(a.members, a.launched, a.generation, op.i) && AllStanding(a, op.i, log))
    && (op.ProviderResume? ==>
          && launches == RowsWith(a, op.i, ProviderResuming) && AllStanding(a, op.i, log)
          && Standing(log, a.members[op.i].id) == if a.pc.Renew? then None else a.members[op.i].provider)
    && (op.Reattach? || op.Deliver? ==> AllResumed(launches, a, log))
    && (op.StopLaunched? || op.RollbackLaunched? ==> TeardownOk(launches, a, op.i + 1, log))
    && (op.RollbackGeneration? ==> ReadyToRelease(launches, a, log))
  }

  ghost predicate ReadyToRelease(launches: Launches, a: Attempt, log: seq<Event>) {
    TeardownOk(launches, a, 0, log) && a.teardownOk && !Ambiguous(a.durable)
  }

  /** What the store looks like to the attempt that owns it. */
  ghost predicate PcSafe(launches: Launches, a: Attempt, log: seq<Event>)
    requires WellFormed(a)
  {
    && (a.pc.Renew? || a.pc.Running? || a.pc.Checking? ==> OpSafe(launches, a, a.pc.op, log))
    && (a.pc.Checking? && a.pc.op.StopAbandoned? ==> !NeedsRollback(a.abandoned[a.pc.op.i].1))
    && (a.pc.ForgetAbandoned? ==> RecoveredUpTo(launches, a, |a.abandoned|, log))
    && (a.pc.Record? ==> launches == Rows(a.members, a.launched, a.generation, a.pc.i) && AllStanding(a, a.pc.i, log))
    && (a.pc.SetResuming? ==> launches == RowsWith(a, a.pc.i, Launched) && AllStanding(a, a.pc.i, log))
    && (a.pc.SetResumed? ==> launches == RowsWith(a, a.pc.i, ProviderResuming) && AllStanding(a, a.pc.i + 1, log))
    && (a.pc.Install? || a.pc.Fetch? || a.pc.Acknowledging? || a.pc.Commit? ==> AllResumed(launches, a, log))
    && (a.pc.ReadDurable? ==> RowsWithin(launches, a))
    && (a.pc.Release? ==> ReadyToRelease(launches, a, log))
  }

  ghost predicate AttemptOk(db: Db, a: Attempt, log: seq<Event>) {
    && WellFormed(a) && ArmedOk(db, a)
    && (a.token.Some? ==> a.token.value.epoch <= db.epoch)
    && (a.pc.FetchToken? && db.state == Resuming && db.owner == Some(a.owner) && db.key == Some(a.key)
       ==> a.generation == db.generation)
    && (Owns(db, a) ==> a.generation == db.generation && PcSafe(db.launches, a, log))
  }

  /** A standing conversation has its row, so every later attempt finds it. */
  ghost predicate StandingOk(db: Db, log: seq<Event>) {
    forall m: MemberId | Standing(log, m).Some? ::
      && db.state == Resuming && (m, db.generation) in db.launches
      && db.launches[(m, db.generation)].phase != Launched
         && db.launches[(m, db.generation)].provider == Standing(log, m)
  }

  ghost predicate ArmedOnce(attempts: map<Owner, Attempt>) {
    forall o, p, i, j | o in attempts && p in attempts && 0 <= i < |attempts[o].members|
        && 0 <= j < |attempts[p].members|
                        && Armed(attempts[o], i) && Armed(attempts[p], j)
                           && attempts[o].members[i].id == attempts[p].members[j].id :: o == p
  }

  ghost predicate Safe(s: System) {
    && DbOk(s.db) && StandingOk(s.db, s.log) && LogSafe(s.log) && ArmedOnce(s.attempts)
    && forall o | o in s.attempts :: s.attempts[o].owner == o && AttemptOk(s.db, s.attempts[o], s.log)
  }

  // ---------------------------------------------------------------- steps that leave the rows alone

  /** The two stores agree on who may resume and on every launch row; the lease may differ. */
  predicate SameRows(db: Db, db': Db) {
    && db'.state == db.state && db'.owner == db.owner && db'.key == db.key && db'.epoch == db.epoch
    && db'.generation == db.generation && db'.launches == db.launches
  }

  ghost predicate SameStanding(log: seq<Event>, log': seq<Event>) {
    forall m: MemberId :: Standing(log', m) == Standing(log, m)
  }

  lemma NeutralStanding(log: seq<Event>, events: seq<Event>)
    requires |events| <= 1 && (events != [] ==> Neutral(events[0]))
    ensures SameStanding(log, log + events)
    ensures LogSafe(log) ==> LogSafe(log + events)
  {
    if events == [] {
      assert log + events == log;
    } else {
      assert events == [events[0]];
      forall m: MemberId ensures Standing(log + events, m) == Standing(log, m) { StandingNext(log, events[0], m); }
      if LogSafe(log) { LogSafeNext(log, events[0]); }
    }
  }

  lemma RecoveredSame(launches: Launches, a: Attempt, n: nat, log: seq<Event>, log': seq<Event>)
    requires SameStanding(log, log') && RecoveredUpTo(launches, a, n, log)
    ensures RecoveredUpTo(launches, a, n, log')
  {
  }

  lemma AllStandingSame(a: Attempt, n: nat, log: seq<Event>, log': seq<Event>)
    requires SameStanding(log, log') && AllStanding(a, n, log)
    ensures AllStanding(a, n, log')
  {
  }

  lemma TeardownSame(launches: Launches, a: Attempt, n: nat, log: seq<Event>, log': seq<Event>)
    requires SameStanding(log, log') && TeardownOk(launches, a, n, log)
    ensures TeardownOk(launches, a, n, log')
  {
  }

  lemma OpSafeSame(launches: Launches, a: Attempt, op: Op, log: seq<Event>, log': seq<Event>)
    requires SameStanding(log, log') && OpOk(a, op) && OpSafe(launches, a, op, log)
    ensures OpSafe(launches, a, op, log')
  {
    match op
    case StopAbandoned(i) => RecoveredSame(launches, a, i, log, log');
    case RollbackAbandoned(i) => RecoveredSame(launches, a, i, log, log');
    case RollbackAbandonedGeneration => RecoveredSame(launches, a, |a.abandoned|, log, log');
    case Reconcile(_) =>
    case Launch(i) => AllStandingSame(a, i, log, log');
    case ProviderResume(i) => AllStandingSame(a, i, log, log');
    case Reattach => AllStandingSame(a, |a.members|, log, log');
    case Deliver(_, _) => AllStandingSame(a, |a.members|, log, log');
    case StopLaunched(i) => TeardownSame(launches, a, i + 1, log, log');
    case RollbackLaunched(i) => TeardownSame(launches, a, i + 1, log, log');
    case RollbackGeneration => TeardownSame(launches, a, 0, log, log');
  }

  lemma PcSafeSame(launches: Launches, a: Attempt, log: seq<Event>, log': seq<Event>)
    requires SameStanding(log, log') && WellFormed(a) && PcSafe(launches, a, log)
    ensures PcSafe(launches, a, log')
  {
    if a.pc.Renew? || a.pc.Running? || a.pc.Checking? {
      OpSafeSame(launches, a, a.pc.op, log, log');
    } else if a.pc.ForgetAbandoned? {
      RecoveredSame(launches, a, |a.abandoned|, log, log');
    } else if a.pc.Record? || a.pc.SetResuming? {
      AllStandingSame(a, a.pc.i, log, log');
    } else if a.pc.SetResumed? {
      AllStandingSame(a, a.pc.i + 1, log, log');
    } else if a.pc.Install? || a.pc.Fetch? || a.pc.Acknowledging? || a.pc.Commit? {
      AllStandingSame(a, |a.members|, log, log');
    } else if a.pc.Release? {
      TeardownSame(launches, a, 0, log, log');
    }
  }

  lemma AttemptOkSame(db: Db, db': Db, a: Attempt, log: seq<Event>, log': seq<Event>)
    requires SameRows(db, db') && SameStanding(log, log') && AttemptOk(db, a, log)
    ensures AttemptOk(db', a, log')
  {
    if Owns(db, a) { PcSafeSame(db.launches, a, log, log'); }
  }

  /** An attempt that does not own the store only needs its armed row to be left alone. */
  lemma BystanderOk(db: Db, db': Db, a: Attempt, log: seq<Event>, log': seq<Event>)
    requires AttemptOk(db, a, log) && !Owns(db', a) && ArmedOk(db', a) && db.epoch <= db'.epoch
    requires db'.state == Resuming ==> db'.owner != Some(a.owner) || !a.pc.FetchToken?
    ensures AttemptOk(db', a, log')
  {
  }

  ghost predicate NoneArmed(attempts: map<Owner, Attempt>) {
    forall o, i | o in attempts && 0 <= i < |attempts[o].members| :: !Armed(attempts[o], i)
  }

  function After(s: System, o: Owner, e: Effect): System {
    System(e.db, s.attempts[o := e.attempt], s.log + e.events)
  }

  /** One step of the attempt of `o` keeps the system safe. */
  ghost predicate StepSafe(s: System, o: Owner, e: Effect) {
    Safe(After(s, o, e))
  }

  /** What that comes down to: the store, the log, the attempt itself and everyone else. */
  ghost predicate StepFacts(s: System, o: Owner, e: Effect, log': seq<Event>)
    requires o in s.attempts
  {
    && log' == s.log + e.events
    && DbOk(e.db) && StandingOk(e.db, log') && LogSafe(log')
    && e.attempt.owner == o && e.attempt.members == s.attempts[o].members && AttemptOk(e.db, e.attempt, log')
    && (forall p | p in s.attempts && p != o :: AttemptOk(e.db, s.attempts[p], log'))
    && (forall i | 0 <= i < |e.attempt.members| && Armed(e.attempt, i) ::
       Armed(s.attempts[o], i) || NoneArmed(s.attempts))
  }

  lemma FactsSuffice(s: System, o: Owner, e: Effect, log': seq<Event>)
    requires Safe(s) && o in s.attempts && StepFacts(s, o, e, log')
    ensures StepSafe(s, o, e)
  {
  }

  /** A step that writes no row and says nothing about conversations disturbs nobody else. */
  lemma QuietStep(s: System, o: Owner, e: Effect)
    requires Safe(s) && o in s.attempts && SameRows(s.db, e.db)
    requires |e.events| <= 1 && (e.events != [] ==> Neutral(e.events[0]))
    requires e.attempt.owner == o && e.attempt.members == s.attempts[o].members
    requires AttemptOk(s.db, e.attempt, s.log)
    requires forall i | 0 <= i < |e.attempt.members| && Armed(e.attempt, i) :: Armed(s.attempts[o], i)
    ensures StepSafe(s, o, e)
  {
    var db, db', b, log := s.db, e.db, e.attempt, s.log;
    var log' := log + e.events;
    NeutralStanding(log, e.events);
    AttemptOkSame(db, db', b, log, log');
    forall p | p in s.attempts && p != o ensures AttemptOk(db', s.attempts[p], log') {
      var c := s.attempts[p];
      AttemptOkSame(db, db', c, log, log');
    }
    FactsSuffice(s, o, e, log');
  }
}
