/** Every step of every coordinator keeps `ResumeSafety.Safe`. */
module ResumeSteps {
  import opened Options
  import opened BlueprintStore
  import opened ResumeSaga
  import opened ResumeSafety

  // ---------------------------------------------------------------- rows

  predicate RowOf(members: seq<Member>, generation: nat, j: nat, k: (MemberId, nat), row: Row) {
    j < |members| && k == (members[j].id, generation) && row.provider == members[j].provider
        && row.phase != ProviderResuming
  }

  ghost predicate RowsOf(rows: Launches, members: seq<Member>, generation: nat, n: nat) {
    forall k | k in rows :: exists j: nat :: j < n && RowOf(members, generation, j, k, rows[k])
  }

  lemma {:induction false} RowsDomain(members: seq<Member>, launched: seq<Runtime>, generation: nat, n: nat)
    requires n <= |members| && n <= |launched|
    ensures RowsOf(Rows(members, launched, generation, n), members, generation, n)
  {
    if n > 0 {
      var before := Rows(members, launched, generation, n - 1);
      RowsDomain(members, launched, generation, n - 1);
      var rows := Rows(members, launched, generation, n);
      forall k | k in rows ensures exists j: nat :: j < n && RowOf(members, generation, j, k, rows[k]) {
        if k == (members[n - 1].id, generation) {
          assert RowOf(members, generation, n - 1, k, rows[k]);
        } else {
          var j: nat :| j < n - 1 && RowOf(members, generation, j, k, before[k]);
          assert RowOf(members, generation, j, k, rows[k]);
        }
      }
    }
  }

  lemma {:induction false} RowsPrefix(members: seq<Member>, launched: seq<Runtime>, r: Runtime, generation: nat, n: nat)
    requires n <= |members| && n <= |launched|
    ensures Rows(members, launched + [r], generation, n) == Rows(members, launched, generation, n)
  {
    if n > 0 {
      RowsPrefix(members, launched, r, generation, n - 1);
    }
  }

  lemma RowsAreWithin(launches: Launches, a: Attempt, n: nat)
    requires n <= |a.members| && n <= |a.launched| && launches == Rows(a.members, a.launched, a.generation, n)
    ensures RowsWithin(launches, a)
  {
    RowsDomain(a.members, a.launched, a.generation, n);
    forall k | k in launches
      ensures exists j ::
                0 <= j < |a.launched| && j < |a.members| && k == Slot(a, j)
                && launches[k].provider == a.members[j].provider
    {
      var j: nat :| j < n && RowOf(a.members, a.generation, j, k, launches[k]);
      assert k == Slot(a, j);
    }
  }

  lemma RowsWithAreWithin(launches: Launches, a: Attempt, n: nat, phase: Phase)
    requires n < |a.members| && n < |a.launched| && launches == RowsWith(a, n, phase)
    ensures RowsWithin(launches, a)
  {
    var rows := Rows(a.members, a.launched, a.generation, n);
    RowsAreWithin(rows, a, n);
    forall k | k in launches
      ensures exists j ::
                0 <= j < |a.launched| && j < |a.members| && k == Slot(a, j)
                && launches[k].provider == a.members[j].provider
    {
      if k == Slot(a, n) {
      } else {
        assert k in rows;
        var j :| 0 <= j < |a.launched| && j < |a.members| && k == Slot(a, j)
            && rows[k].provider == a.members[j].provider;
        assert launches[k].provider == a.members[j].provider;
      }
    }
  }

  // ---------------------------------------------------------------- where control goes

  /** Nothing but the program counter differs. */
  predicate SameLocals(a: Attempt, b: Attempt) {
    b == a.(pc := b.pc)
  }

  lemma OpSafeElsewhere(launches: Launches, a: Attempt, b: Attempt, op: Op, log: seq<Event>)
    requires SameLocals(a, b) && OpOk(a, op) && !op.ProviderResume? && OpSafe(launches, a, op, log)
    ensures OpOk(b, op) && OpSafe(launches, b, op, log)
  {
  }

  ghost predicate Reaches(launches: Launches, a: Attempt, pc: Pc, log: seq<Event>) {
    var b := a.(pc := pc);
    WellFormed(b) && PcSafe(launches, b, log) && forall i | 0 <= i < |a.members| :: !Armed(b, i)
  }

  lemma LaunchReached(launches: Launches, a: Attempt, i: nat, log: seq<Event>)
    requires WellFormed(a) && a.token.Some? && i == |a.launched| <= |a.members|
    requires launches == Rows(a.members, a.launched, a.generation, i) && AllStanding(a, i, log)
    ensures Reaches(launches, a, LaunchPc(a, i), log)
  {
  }

  lemma ReconcileReached(launches: Launches, a: Attempt, i: nat, log: seq<Event>)
    requires WellFormed(a) && a.token.Some? && a.launched == [] && launches == map[]
    ensures Reaches(launches, a, ReconcilePc(a, i), log)
  {
    if i >= |a.members| { LaunchReached(launches, a, 0, log); }
  }

  lemma AbandonedReached(db: Db, a: Attempt, i: nat, log: seq<Event>)
    requires WellFormed(a) && a.token.Some? && a.launched == [] && DbOk(db) && a.generation == db.generation
    requires RecoveredUpTo(db.launches, a, i, log)
    ensures Reaches(db.launches, a, AbandonedPc(a, i), log)
  {
    if i < |a.abandoned| {
    } else if |a.abandoned| > 0 {
    } else {
      assert forall m: MemberId :: (m, a.generation) !in db.launches;
      assert forall k | k in db.launches :: k == (k.0, a.generation);
      assert db.launches == map[];
      ReconcileReached(db.launches, a, 0, log);
    }
  }

  lemma FetchReached(launches: Launches, a: Attempt, i: nat, log: seq<Event>)
    requires WellFormed(a) && a.token.Some? && |a.launched| == |a.members| && AllResumed(launches, a, log)
    ensures Reaches(launches, a, FetchPc(a, i), log)
  {
  }

  lemma DeliverReached(launches: Launches, a: Attempt, i: nat, rest: seq<Delivery>, log: seq<Event>)
    requires WellFormed(a) && a.token.Some? && |a.launched| == |a.members| && i < |a.members|
    requires AllResumed(launches, a, log)
    ensures Reaches(launches, a, DeliverPc(a, i, rest), log)
  {
    if rest == [] { FetchReached(launches, a, i + 1, log); }
  }

  lemma TeardownReached(launches: Launches, a: Attempt, n: nat, log: seq<Event>)
    requires WellFormed(a) && a.token.Some? && n <= |a.launched| && TeardownOk(launches, a, n, log)
    ensures Reaches(launches, a, TeardownPc(a, n), log)
  {
  }

  lemma AfterStopReached(launches: Launches, a: Attempt, i: nat, log: seq<Event>)
    requires WellFormed(a) && a.token.Some? && i < |a.launched| && TeardownOk(launches, a, i + 1, log)
    ensures Reaches(launches, a, AfterStop(a, i), log)
  {
    if !LaunchedNeedsRollback(a, i) { TeardownReached(launches, a, i, log); }
  }

  // ---------------------------------------------------------------- failure

  predicate At(a: Attempt, op: Op) {
    a.pc == Renew(op) || a.pc == Running(op) || a.pc == Checking(op)
  }

  /** Once something may have been launched, a failing call leads into the teardown. */
  lemma FailIntoTeardown(launches: Launches, a: Attempt, op: Op, log: seq<Event>)
    requires OpOk(a, op) && OpSafe(launches, a, op, log) && |a.launched| <= |a.members|
    requires op.Launch? || op.ProviderResume? || op.Reattach? || op.Deliver?
    ensures RowsWithin(launches, a)
  {
    match op
    case Launch(i) => RowsAreWithin(launches, a, i);
    case ProviderResume(i) => RowsWithAreWithin(launches, a, i, ProviderResuming);
    case Reattach => RowsAreWithin(launches, a, |a.members|);
    case Deliver(_, _) => RowsAreWithin(launches, a, |a.members|);
  }

  lemma StopFailReached(launches: Launches, a: Attempt, i: nat, log: seq<Event>)
    requires WellFormed(a) && a.token.Some? && OpOk(a, StopLaunched(i)) && OpSafe(launches, a, StopLaunched(i), log)
    ensures Reaches(launches, a.(teardownOk := false), AfterStop(a.(teardownOk := false), i), log)
  {
    AfterStopReached(launches, a.(teardownOk := false), i, log);
  }

  lemma RollbackFailReached(launches: Launches, a: Attempt, i: nat, log: seq<Event>)
    requires WellFormed(a) && a.token.Some? && OpOk(a, RollbackLaunched(i))
    requires OpSafe(launches, a, RollbackLaunched(i), log)
    ensures Reaches(launches, a.(teardownOk := false), TeardownPc(a.(teardownOk := false), i), log)
  {
    TeardownReached(launches, a.(teardownOk := false), i, log);
  }

  /** A failing call never leaves its attempt armed, and keeps what the store looks like to its owner. */
  lemma FailReached(launches: Launches, a: Attempt, op: Op, log: seq<Event>)
    requires WellFormed(a) && a.token.Some? && OpOk(a, op) && OpSafe(launches, a, op, log)
    ensures var b := Fail(a, op); WellFormed(b) && PcSafe(launches, b, log)
  {
    if op.Launch? || op.ProviderResume? || op.Reattach? || op.Deliver? {
      FailIntoTeardown(launches, a, op, log);
      assert Fail(a, op) == a.(pc := ReadDurable);
    } else if op.StopLaunched? {
      StopFailReached(launches, a, op.i, log);
    } else if op.RollbackLaunched? {
      RollbackFailReached(launches, a, op.i, log);
    } else {
      assert Fail(a, op) == a.(pc := Failed);
    }
  }

  lemma FailWellFormed(a: Attempt, op: Op)
    requires WellFormed(a) && a.token.Some? && OpOk(a, op)
    ensures var b := Fail(a, op);
            WellFormed(b) && b.owner == a.owner && b.members == a.members && b.token == a.token
                && b.generation == a.generation && b.key == a.key
    ensures forall i | 0 <= i < |a.members| :: !Armed(Fail(a, op), i)
    ensures !Fail(a, op).pc.FetchToken?
  {
  }

  // ---------------------------------------------------------------- shapes of a step

  predicate SameIdentity(a: Attempt, b: Attempt) {
    b.owner == a.owner && b.members == a.members && b.token == a.token && b.generation == a.generation && b.key == a.key
  }

  predicate InProgress(a: Attempt) {
    a.token.Some? && !a.pc.FetchToken? && !a.pc.Finished? && !a.pc.Failed? && !a.pc.Crashed?
  }

  /** `b` is a place to which `a` may move without writing a row or speaking of a conversation. */
  ghost predicate Movable(db: Db, a: Attempt, b: Attempt, log: seq<Event>) {
    && SameIdentity(a, b) && WellFormed(b) && !b.pc.FetchToken?
    && (forall i | 0 <= i < |b.members| && Armed(b, i) :: Armed(a, i))
    && (Owns(db, a) ==> PcSafe(db.launches, b, log))
  }

  /** The attempt moves on; the rows and what stands are as they were. */
  lemma MoveSafe(s: System, o: Owner, db': Db, b: Attempt, events: seq<Event>)
    requires Safe(s) && o in s.attempts && InProgress(s.attempts[o]) && SameRows(s.db, db')
    requires |events| <= 1 && (events != [] ==> Neutral(events[0]))
    requires Movable(s.db, s.attempts[o], b, s.log)
    ensures StepSafe(s, o, Effect(db', b, events))
  {
    var a := s.attempts[o];
    assert Owns(s.db, b) ==> Owns(s.db, a);
    assert ArmedOk(s.db, b);
    var e := Effect(db', b, events);
    QuietStep(s, o, e);
  }

  /** While one attempt owns the store every other is a bystander. */
  lemma OthersStandBy(s: System, o: Owner, log': seq<Event>)
    requires Safe(s) && o in s.attempts && Owns(s.db, s.attempts[o])
    ensures forall p | p in s.attempts && p != o :: AttemptOk(s.db, s.attempts[p], log')
  {
    var db, log := s.db, s.log;
    forall p | p in s.attempts && p != o ensures AttemptOk(db, s.attempts[p], log') {
      var b := s.attempts[p];
      BystanderOk(db, db, b, log, log');
    }
  }

  /** What has to hold for the owner `a` to log `e` and become `b`. */
  ghost predicate MaySay(db: Db, a: Attempt, b: Attempt, log: seq<Event>, e: Event) {
    && EventSafe(log, e) && StandingOk(db, log + [e]) && SameIdentity(a, b) && AttemptOk(db, b, log + [e])
    && forall i | 0 <= i < |b.members| && Armed(b, i) :: Armed(a, i)
  }

  /** The owner says something about a conversation; no row changes. */
  lemma SaySafe(s: System, o: Owner, b: Attempt, e: Event)
    requires Safe(s) && o in s.attempts && Owns(s.db, s.attempts[o])
    requires MaySay(s.db, s.attempts[o], b, s.log, e)
    ensures StepSafe(s, o, Effect(s.db, b, [e]))
  {
    var log' := s.log + [e];
    var effect := Effect(s.db, b, [e]);
    LogSafeNext(s.log, e);
    OthersStandBy(s, o, log');
    FactsSuffice(s, o, effect, log');
  }

  // ---------------------------------------------------------------- before, during and after a call

  lemma FailMovable(db: Db, a: Attempt, op: Op, log: seq<Event>)
    requires AttemptOk(db, a, log) && At(a, op) && OpOk(a, op)
    ensures Movable(db, a, Fail(a, op), log)
  {
    FailWellFormed(a, op);
    if Owns(db, a) {
      FailReached(db.launches, a, op, log);
    }
  }

  lemma FailSafe(s: System, o: Owner, op: Op)
    requires Safe(s) && o in s.attempts && At(s.attempts[o], op) && OpOk(s.attempts[o], op)
    ensures StepSafe(s, o, Effect(s.db, Fail(s.attempts[o], op), []))
  {
    var db, a, log := s.db, s.attempts[o], s.log;
    var b := Fail(a, op);
    FailMovable(db, a, op, log);
    MoveSafe(s, o, db, b, []);
  }

  lemma RenewSafe(s: System, o: Owner, op: Op, ch: Choice)
    requires Safe(s) && o in s.attempts && s.attempts[o].pc == Renew(op) && OpOk(s.attempts[o], op)
    requires s.attempts[o].token.Some?
    ensures StepSafe(s, o, RenewStep(s.db, s.attempts[o], op, ch))
  {
    var a := s.attempts[o];
    if op.Launch? && AsksProvider(a.members[op.i]) && ch.reply.Throws? {
      FailSafe(s, o, op);
    } else if !Current(s.db, a.token.value) {
      FailSafe(s, o, op);
    } else if op.ProviderResume? {
      ProviderCallSafe(s, o, op.i);
    } else {
      RenewedSafe(s, o, op);
    }
  }

  lemma RenewedSafe(s: System, o: Owner, op: Op)
    requires Safe(s) && o in s.attempts && s.attempts[o].pc == Renew(op) && OpOk(s.attempts[o], op)
    requires s.attempts[o].token.Some?
    requires Current(s.db, s.attempts[o].token.value) && !op.ProviderResume?
    ensures StepSafe(s, o, Effect(s.db, s.attempts[o].(pc := Running(op)), []))
  {
    var a := s.attempts[o];
    var b := a.(pc := Running(op));
    OpSafeElsewhere(s.db.launches, a, b, op, s.log);
    MoveSafe(s, o, s.db, b, []);
  }

  /** `provider.resume` is called: nothing is standing for the member, and its row says so from now on. */
  lemma ProviderCall(db: Db, a: Attempt, i: nat, log: seq<Event>)
    requires AttemptOk(db, a, log) && StandingOk(db, log) && Owns(db, a) && a.pc == Renew(ProviderResume(i))
    requires OpOk(a, ProviderResume(i))
    ensures MaySay(db, a, a.(pc := Running(ProviderResume(i))), log,
              ResumeCalled(a.token.value, a.members[i].id, a.members[i].provider.value))
  {
    var e := ResumeCalled(a.token.value, a.members[i].id, a.members[i].provider.value);
    assert Armed(a, i);
    forall m: MemberId ensures Standing(log + [e], m) == if m == a.members[i].id then a.members[i].provider
        else Standing(log, m) {
      StandingNext(log, e, m);
    }
  }

  lemma ProviderCallSafe(s: System, o: Owner, i: nat)
    requires Safe(s) && o in s.attempts && s.attempts[o].pc == Renew(ProviderResume(i))
    requires OpOk(s.attempts[o], ProviderResume(i))
    requires s.attempts[o].token.Some? && Current(s.db, s.attempts[o].token.value)
    ensures var a := s.attempts[o];
            StepSafe(s, o, Effect(s.db, a.(pc := Running(ProviderResume(i))),
                [ResumeCalled(a.token.value, a.members[i].id, a.members[i].provider.value)]))
  {
    var a := s.attempts[o];
    var db, log := s.db, s.log;
    var b := a.(pc := Running(ProviderResume(i)));
    var e := ResumeCalled(a.token.value, a.members[i].id, a.members[i].provider.value);
    ProviderCall(db, a, i, log);
    SaySafe(s, o, b, e);
  }

  lemma StoppedMovable(db: Db, a: Attempt, i: nat, log: seq<Event>)
    requires AttemptOk(db, a, log) && a.pc == Running(StopAbandoned(i)) && OpOk(a, StopAbandoned(i))
    ensures Movable(db, a, a.(pc := if NeedsRollback(a.abandoned[i].1) then Running(RollbackAbandoned(i))
              else Checking(StopAbandoned(i))), log)
  {
  }

  lemma RunningMovable(db: Db, a: Attempt, op: Op, log: seq<Event>)
    requires AttemptOk(db, a, log) && a.pc == Running(op) && OpOk(a, op) && !op.StopAbandoned?
    ensures !op.Launch? && !op.Deliver? ==> Movable(db, a, a.(pc := Checking(op)), log)
    ensures op.Deliver? ==> Movable(db, a, a.(pc := Acknowledging(op.i, op.rest)), log)
    ensures op.Launch? ==> forall r: Runtime :: Movable(db, a, a.(arrived := Some(r), pc := Checking(op)), log)
  {
    if Owns(db, a) && !op.ProviderResume? {
      OpSafeElsewhere(db.launches, a, a.(pc := Checking(op)), op, log);
    }
  }

  lemma DisownedMovable(db: Db, a: Attempt, i: nat, log: seq<Event>)
    requires AttemptOk(db, a, log) && a.pc == Running(Reconcile(i)) && OpOk(a, Reconcile(i))
    ensures Movable(db, a, Succeed(a, Reconcile(i)), log)
  {
    if Owns(db, a) {
      ReconcileReached(db.launches, a, i + 1, log);
    }
  }

  lemma RunningSafe(s: System, o: Owner, op: Op, ch: Choice)
    requires Safe(s) && o in s.attempts && s.attempts[o].pc == Running(op) && OpOk(s.attempts[o], op)
    requires s.attempts[o].token.Some?
    ensures StepSafe(s, o, RunningStep(s.db, s.attempts[o], op, ch))
  {
    var a := s.attempts[o];
    var e := RunningStep(s.db, a, op, ch);
    if op.Reconcile? && ch.reply.Disowned? {
      var b := e.attempt;
      DisownedMovable(s.db, a, op.i, s.log);
      MoveSafe(s, o, s.db, b, e.events);
    } else if !ch.reply.Returns? || (op.Deliver? && !ch.accepted) {
      FailSafe(s, o, op);
    } else {
      RunningReturns(s, o, op, ch);
    }
  }

  lemma RunningReturns(s: System, o: Owner, op: Op, ch: Choice)
    requires Safe(s) && o in s.attempts && s.attempts[o].pc == Running(op) && OpOk(s.attempts[o], op)
    requires s.attempts[o].token.Some?
    requires ch.reply.Returns? && (op.Deliver? ==> ch.accepted)
    ensures StepSafe(s, o, RunningStep(s.db, s.attempts[o], op, ch))
  {
    var db, a, log := s.db, s.attempts[o], s.log;
    var e := RunningStep(db, a, op, ch);
    var b := e.attempt;
    if op.StopAbandoned? {
      StoppedMovable(db, a, op.i, log);
    } else {
      RunningMovable(db, a, op, log);
    }
    MoveSafe(s, o, db, b, e.events);
  }

  // ---------------------------------------------------------------- a call that returned under the lease

  /** One more abandoned row is settled: it was never resumed, or its rollback has just returned. */
  lemma OneMoreRecovered(db: Db, a: Attempt, i: nat, log: seq<Event>, log': seq<Event>)
    requires DbOk(db) && StandingOk(db, log) && db.state == Resuming && a.generation == db.generation
    requires i < |a.abandoned| && RecoveredUpTo(db.launches, a, i, log) && a.abandoned[i].1.phase != ProviderResuming
    requires !NeedsRollback(a.abandoned[i].1) || Standing(log', a.abandoned[i].0) == None
    requires forall m: MemberId :: Standing(log', m) == Standing(log, m) || Standing(log', m) == None
    ensures RecoveredUpTo(db.launches, a, i + 1, log')
  {
    var m := a.abandoned[i].0;
    assert (m, a.generation) in db.launches && db.launches[(m, a.generation)] == a.abandoned[i].1;
    assert !NeedsRollback(a.abandoned[i].1) ==> Standing(log, m) == None;
  }

  /** The owner rolls a conversation back; then nothing stands for that member. */
  lemma RolledBackStanding(db: Db, log: seq<Event>, t: Token, m: MemberId, c: Conversation)
    requires StandingOk(db, log)
    requires (m, db.generation) in db.launches && db.launches[(m, db.generation)].provider == Some(c)
    ensures var log' := log + [RolledBack(t, m, c)];
            && StandingOk(db, log') && EventSafe(log, RolledBack(t, m, c)) && Standing(log', m) == None
            && forall n: MemberId | n != m :: Standing(log', n) == Standing(log, n)
  {
    forall n: MemberId ensures Standing(log + [RolledBack(t, m, c)], n) == if n == m then None else Standing(log, n) {
      StandingNext(log, RolledBack(t, m, c), n);
    }
  }

  lemma ReachedOk(db: Db, a: Attempt, pc: Pc, log: seq<Event>, log': seq<Event>)
    requires AttemptOk(db, a, log) && Owns(db, a) && Reaches(db.launches, a, pc, log') && !pc.FetchToken?
    ensures AttemptOk(db, a.(pc := pc), log')
    ensures forall i | 0 <= i < |a.members| :: !Armed(a.(pc := pc), i)
  {
  }

  lemma RollbackRecovers(db: Db, a: Attempt, i: nat, log: seq<Event>, t: Token)
    requires DbOk(db) && StandingOk(db, log) && db.state == Resuming && a.generation == db.generation
    requires i < |a.abandoned| && RecoveredUpTo(db.launches, a, i, log) && NeedsRollback(a.abandoned[i].1)
    ensures var e := RolledBack(t, a.abandoned[i].0, a.abandoned[i].1.provider.value);
            EventSafe(log, e) && StandingOk(db, log + [e]) && RecoveredUpTo(db.launches, a, i + 1, log + [e])
  {
    var m, c := a.abandoned[i].0, a.abandoned[i].1.provider.value;
    assert (m, a.generation) in db.launches && db.launches[(m, a.generation)] == a.abandoned[i].1;
    RolledBackStanding(db, log, t, m, c);
    OneMoreRecovered(db, a, i, log, log + [RolledBack(t, m, c)]);
  }

  lemma AbandonedGoesOn(db: Db, a: Attempt, n: nat, log: seq<Event>, log': seq<Event>)
    requires AttemptOk(db, a, log) && DbOk(db) && Owns(db, a) && (a.pc.Checking? && a.pc.op.RollbackAbandoned?)
    requires RecoveredUpTo(db.launches, a, n, log')
    ensures var b := a.(pc := AbandonedPc(a, n));
              AttemptOk(db, b, log') && forall i | 0 <= i < |b.members| :: !Armed(b, i)
  {
    var pc := AbandonedPc(a, n);
    AbandonedReached(db, a, n, log');
    ReachedOk(db, a, pc, log, log');
  }

  /** What the owner knows while it recovers the `i`th abandoned launch. */
  lemma RecoveringAbandoned(db: Db, a: Attempt, op: Op, log: seq<Event>)
    requires AttemptOk(db, a, log) && Owns(db, a) && a.pc == Checking(op)
    requires op.StopAbandoned? || op.RollbackAbandoned?
    ensures RecoveredUpTo(db.launches, a, op.i, log) && op.i < |a.abandoned|
    ensures a.abandoned[op.i].1.phase != ProviderResuming
    ensures NeedsRollback(a.abandoned[op.i].1) <==> op.RollbackAbandoned?
    ensures db.state == Resuming && a.generation == db.generation && a.launched == []
  {
  }

  lemma AbandonedRolledBackSafe(s: System, o: Owner, i: nat)
    requires Safe(s) && o in s.attempts && s.attempts[o].pc == Checking(RollbackAbandoned(i))
    requires Owns(s.db, s.attempts[o])
    requires OpOk(s.attempts[o], RollbackAbandoned(i))
    ensures var a := s.attempts[o];
              StepSafe(s, o, Effect(s.db, Succeed(a, RollbackAbandoned(i)), Achieved(a, RollbackAbandoned(i))))
  {
    var a := s.attempts[o];
    var db, log := s.db, s.log;
    var b := Succeed(a, RollbackAbandoned(i));
    var e := RolledBack(a.token.value, a.abandoned[i].0, a.abandoned[i].1.provider.value);
    RecoveringAbandoned(db, a, RollbackAbandoned(i), log);
    RollbackRecovers(db, a, i, log, a.token.value);
    AbandonedGoesOn(db, a, i + 1, log, log + [e]);
    SaySafe(s, o, b, e);
  }

  lemma LaunchedRolledBack(db: Db, a: Attempt, i: nat, log: seq<Event>)
    requires AttemptOk(db, a, log) && StandingOk(db, log) && Owns(db, a) && a.pc == Checking(RollbackLaunched(i))
    requires OpOk(a, RollbackLaunched(i))
    ensures MaySay(db, a, Succeed(a, RollbackLaunched(i)), log,
              RolledBack(a.token.value, a.members[i].id, a.members[i].provider.value))
  {
    var m, c := a.members[i].id, a.members[i].provider.value;
    var e := RolledBack(a.token.value, m, c);
    RowOfLaunched(db, a, i);
    RolledBackStanding(db, log, a.token.value, m, c);
    assert a.teardownOk ==> TornDown(a, i, log + [e]);
    TeardownReached(db.launches, a, i, log + [e]);
    ReachedOk(db, a, TeardownPc(a, i), log, log + [e]);
  }

  lemma LaunchedRolledBackSafe(s: System, o: Owner, i: nat)
    requires Safe(s) && o in s.attempts && s.attempts[o].pc == Checking(RollbackLaunched(i))
    requires Owns(s.db, s.attempts[o])
    requires OpOk(s.attempts[o], RollbackLaunched(i))
    ensures var a := s.attempts[o];
              StepSafe(s, o, Effect(s.db, Succeed(a, RollbackLaunched(i)), Achieved(a, RollbackLaunched(i))))
  {
    var a := s.attempts[o];
    var db, log := s.db, s.log;
    var b := Succeed(a, RollbackLaunched(i));
    var e := RolledBack(a.token.value, a.members[i].id, a.members[i].provider.value);
    LaunchedRolledBack(db, a, i, log);
    SaySafe(s, o, b, e);
  }

  /** The row that names a launched member carries that member's provider. */
  lemma RowOfLaunched(db: Db, a: Attempt, i: nat)
    requires RowsWithin(db.launches, a) && Distinct(a.members) && i < |a.members| && Slot(a, i) in db.launches
    ensures db.launches[Slot(a, i)].provider == a.members[i].provider
  {
    var j :| 0 <= j < |a.launched| && j < |a.members| && Slot(a, i) == Slot(a, j)
        && db.launches[Slot(a, i)].provider == a.members[j].provider;
    assert a.members[i].id == a.members[j].id;
    assert i == j;
  }

  lemma ReachedMovable(db: Db, a: Attempt, pc: Pc, log: seq<Event>)
    requires AttemptOk(db, a, log) && Owns(db, a) && Reaches(db.launches, a, pc, log) && !pc.FetchToken?
    ensures Movable(db, a, a.(pc := pc), log)
  {
  }

  lemma LaunchSucceeds(db: Db, a: Attempt, i: nat, log: seq<Event>)
    requires AttemptOk(db, a, log) && Owns(db, a) && a.pc == Checking(Launch(i)) && OpOk(a, Launch(i))
    requires a.arrived.Some?
    ensures Movable(db, a, Succeed(a, Launch(i)), log)
  {
    RowsPrefix(a.members, a.launched, a.arrived.value, a.generation, i);
  }

  lemma ProviderResumeSucceeds(db: Db, a: Attempt, i: nat, log: seq<Event>)
    requires AttemptOk(db, a, log) && Owns(db, a) && a.pc == Checking(ProviderResume(i)) && OpOk(a, ProviderResume(i))
    ensures Movable(db, a, Succeed(a, ProviderResume(i)), log)
  {
    assert AllStanding(a, i + 1, log);
  }

  lemma LaunchingSucceeds(db: Db, a: Attempt, op: Op, log: seq<Event>)
    requires AttemptOk(db, a, log) && Owns(db, a) && a.pc == Checking(op) && OpOk(a, op)
    requires (op.Launch? && a.arrived.Some?) || op.ProviderResume?
    ensures Movable(db, a, Succeed(a, op), log)
  {
    if op.Launch? {
      LaunchSucceeds(db, a, op.i, log);
    } else {
      ProviderResumeSucceeds(db, a, op.i, log);
    }
  }

  lemma StopAbandonedSucceeds(db: Db, a: Attempt, i: nat, log: seq<Event>)
    requires AttemptOk(db, a, log) && DbOk(db) && StandingOk(db, log) && Owns(db, a)
    requires a.pc == Checking(StopAbandoned(i)) && OpOk(a, StopAbandoned(i))
    ensures Movable(db, a, Succeed(a, StopAbandoned(i)), log)
  {
    RecoveringAbandoned(db, a, StopAbandoned(i), log);
    OneMoreRecovered(db, a, i, log, log);
    AbandonedMovable(db, a, i + 1, log);
  }

  lemma AbandonedMovable(db: Db, a: Attempt, n: nat, log: seq<Event>)
    requires AttemptOk(db, a, log) && DbOk(db) && Owns(db, a) && a.launched == [] && a.generation == db.generation
    requires RecoveredUpTo(db.launches, a, n, log)
    ensures Movable(db, a, a.(pc := AbandonedPc(a, n)), log)
  {
    var pc := AbandonedPc(a, n);
    AbandonedReached(db, a, n, log);
    ReachedMovable(db, a, pc, log);
  }

  lemma DeliverSucceeds(db: Db, a: Attempt, i: nat, rest: seq<Delivery>, log: seq<Event>)
    requires AttemptOk(db, a, log) && Owns(db, a) && a.pc == Checking(Deliver(i, rest)) && OpOk(a, Deliver(i, rest))
    ensures Movable(db, a, Succeed(a, Deliver(i, rest)), log)
  {
    DeliverReached(db.launches, a, i, rest[1..], log);
    ReachedMovable(db, a, DeliverPc(a, i, rest[1..]), log);
  }

  lemma StopLaunchedSucceeds(db: Db, a: Attempt, i: nat, log: seq<Event>)
    requires AttemptOk(db, a, log) && Owns(db, a) && a.pc == Checking(StopLaunched(i)) && OpOk(a, StopLaunched(i))
    ensures Movable(db, a, Succeed(a, StopLaunched(i)), log)
  {
    AfterStopReached(db.launches, a, i, log);
    ReachedMovable(db, a, AfterStop(a, i), log);
  }

  lemma ReconcileSucceeds(db: Db, a: Attempt, i: nat, log: seq<Event>)
    requires AttemptOk(db, a, log) && Owns(db, a) && a.pc == Checking(Reconcile(i)) && OpOk(a, Reconcile(i))
    ensures Movable(db, a, Succeed(a, Reconcile(i)), log)
  {
    ReconcileReached(db.launches, a, i + 1, log);
    ReachedMovable(db, a, ReconcilePc(a, i + 1), log);
  }

  lemma ReattachSucceeds(db: Db, a: Attempt, log: seq<Event>)
    requires AttemptOk(db, a, log) && Owns(db, a) && a.pc == Checking(Reattach) && OpOk(a, Reattach)
    ensures Movable(db, a, Succeed(a, Reattach), log)
  {
    FetchReached(db.launches, a, 0, log);
    ReachedMovable(db, a, FetchPc(a, 0), log);
  }

  lemma GenerationSucceeds(db: Db, a: Attempt, op: Op, log: seq<Event>)
    requires AttemptOk(db, a, log) && Owns(db, a) && a.pc == Checking(op) && OpOk(a, op)
    requires op.RollbackAbandonedGeneration? || op.RollbackGeneration?
    ensures Movable(db, a, Succeed(a, op), log)
  {
  }

  lemma RecoverySucceeds(db: Db, a: Attempt, op: Op, log: seq<Event>)
    requires AttemptOk(db, a, log) && DbOk(db) && StandingOk(db, log) && Owns(db, a) && a.pc == Checking(op)
    requires OpOk(a, op)
    requires op.StopAbandoned? || op.Reconcile?
    ensures Movable(db, a, Succeed(a, op), log)
  {
    if op.StopAbandoned? {
      StopAbandonedSucceeds(db, a, op.i, log);
    } else {
      ReconcileSucceeds(db, a, op.i, log);
    }
  }

  lemma DeliverySucceeds(db: Db, a: Attempt, op: Op, log: seq<Event>)
    requires AttemptOk(db, a, log) && Owns(db, a) && a.pc == Checking(op) && OpOk(a, op)
    requires op.Reattach? || op.Deliver?
    ensures Movable(db, a, Succeed(a, op), log)
  {
    if op.Reattach? {
      ReattachSucceeds(db, a, log);
    } else {
      DeliverSucceeds(db, a, op.i, op.rest, log);
    }
  }

  lemma LaterSucceeds(db: Db, a: Attempt, op: Op, log: seq<Event>)
    requires AttemptOk(db, a, log) && Owns(db, a) && a.pc == Checking(op) && OpOk(a, op)
    requires op.Reattach? || op.Deliver? || op.StopLaunched? || op.RollbackAbandonedGeneration?
               || op.RollbackGeneration?
    ensures Movable(db, a, Succeed(a, op), log)
  {
    if op.Reattach? || op.Deliver? {
      DeliverySucceeds(db, a, op, log);
    } else if op.StopLaunched? {
      StopLaunchedSucceeds(db, a, op.i, log);
    } else {
      GenerationSucceeds(db, a, op, log);
    }
  }

  lemma SucceedMovable(db: Db, a: Attempt, op: Op, log: seq<Event>)
    requires AttemptOk(db, a, log) && DbOk(db) && StandingOk(db, log) && Owns(db, a) && a.pc == Checking(op)
    requires OpOk(a, op)
    requires !op.RollbackAbandoned? && !op.RollbackLaunched? && (op.Launch? ==> a.arrived.Some?)
    ensures Movable(db, a, Succeed(a, op), log)
  {
    if op.Launch? || op.ProviderResume? {
      LaunchingSucceeds(db, a, op, log);
    } else if op.StopAbandoned? || op.Reconcile? {
      RecoverySucceeds(db, a, op, log);
    } else {
      LaterSucceeds(db, a, op, log);
    }
  }

  lemma DiscardMovable(db: Db, a: Attempt, i: nat, log: seq<Event>)
    requires AttemptOk(db, a, log) && a.pc == Checking(Launch(i)) && OpOk(a, Launch(i))
    ensures Movable(db, a, a.(arrived := None, pc := ReadDurable), log)
  {
    if Owns(db, a) {
      FailIntoTeardown(db.launches, a, Launch(i), log);
    }
  }

  lemma CheckingSafe(s: System, o: Owner, op: Op, ch: Choice)
    requires Safe(s) && o in s.attempts && s.attempts[o].pc == Checking(op) && OpOk(s.attempts[o], op)
    requires s.attempts[o].token.Some? && (op.Launch? ==> s.attempts[o].arrived.Some?)
    ensures StepSafe(s, o, CheckingStep(s.db, s.attempts[o], op, ch))
  {
    var a := s.attempts[o];
    var e := CheckingStep(s.db, a, op, ch);
    if ch.flagged || !Current(s.db, a.token.value) {
      if op.Launch? {
        var b := e.attempt;
        DiscardMovable(s.db, a, op.i, s.log);
        MoveSafe(s, o, s.db, b, e.events);
      } else {
        FailSafe(s, o, op);
      }
    } else if op.RollbackAbandoned? {
      AbandonedRolledBackSafe(s, o, op.i);
    } else if op.RollbackLaunched? {
      LaunchedRolledBackSafe(s, o, op.i);
    } else {
      SucceedSafe(s, o, op);
    }
  }

  lemma SucceedSafe(s: System, o: Owner, op: Op)
    requires Safe(s) && o in s.attempts && s.attempts[o].pc == Checking(op) && OpOk(s.attempts[o], op)
    requires Owns(s.db, s.attempts[o])
    requires !op.RollbackAbandoned? && !op.RollbackLaunched? && (op.Launch? ==> s.attempts[o].arrived.Some?)
    ensures var a := s.attempts[o]; StepSafe(s, o, Effect(s.db, Succeed(a, op), Achieved(a, op)))
  {
    var db, a, log := s.db, s.attempts[o], s.log;
    var b := Succeed(a, op);
    SucceedMovable(db, a, op, log);
    MoveSafe(s, o, db, b, Achieved(a, op));
  }

  // ---------------------------------------------------------------- claims and reads

  lemma ClaimSafe(s: System, o: Owner)
    requires Safe(s) && o in s.attempts && s.attempts[o].pc.Claim?
    ensures StepSafe(s, o, ClaimStep(s.db, s.attempts[o]))
  {
    var a := s.attempts[o];
    if Claimable(s.db, a.key, a.generation) {
      TakeOverSafe(s, o);
    } else {
      var e := ClaimStep(s.db, a);
      QuietStep(s, o, e);
    }
  }

  lemma TakeOverSafe(s: System, o: Owner)
    requires Safe(s) && o in s.attempts && s.attempts[o].pc.Claim?
    requires Claimable(s.db, s.attempts[o].key, s.attempts[o].generation)
    ensures StepSafe(s, o, ClaimStep(s.db, s.attempts[o]))
  {
    var log' := s.log;
    var e := ClaimStep(s.db, s.attempts[o]);
    assert log' == s.log + e.events;
    ClaimKeepsOthers(s, o);
    FactsSuffice(s, o, e, log');
  }

  /** A takeover changes no row, so whoever was armed still is; and nobody else owns the store now. */
  lemma ClaimKeepsOthers(s: System, o: Owner)
    requires Safe(s) && o in s.attempts && Claimable(s.db, s.attempts[o].key, s.attempts[o].generation)
    ensures forall p | p in s.attempts
              && p != o ::
              AttemptOk(Claimed(s.db, s.attempts[o].key, s.attempts[o].generation, o), s.attempts[p], s.log)
  {
    var db' := Claimed(s.db, s.attempts[o].key, s.attempts[o].generation, o);
    var db, log := s.db, s.log;
    forall p | p in s.attempts && p != o ensures AttemptOk(db', s.attempts[p], log) {
      var b := s.attempts[p];
      BystanderOk(db, db', b, log, log);
    }
  }

  lemma FetchTokenSafe(s: System, o: Owner)
    requires Safe(s) && o in s.attempts && s.attempts[o].pc.FetchToken?
    ensures StepSafe(s, o, FetchTokenStep(s.db, s.attempts[o]))
  {
    var e := FetchTokenStep(s.db, s.attempts[o]);
    QuietStep(s, o, e);
  }

  lemma ReadAbandonedMovable(db: Db, a: Attempt, rows: seq<(MemberId, Row)>, log: seq<Event>)
    requires AttemptOk(db, a, log) && DbOk(db) && a.pc.ReadAbandoned? && Lists(rows, db.launches, a.generation)
    ensures var b := a.(abandoned := rows); Movable(db, a, b.(pc := AbandonedPc(b, 0)), log)
  {
    var b := a.(abandoned := rows);
    if Owns(db, a) {
      AbandonedReached(db, b, 0, log);
    }
  }

  lemma ReadAbandonedSafe(s: System, o: Owner, ch: Choice)
    requires Safe(s) && o in s.attempts && s.attempts[o].pc.ReadAbandoned?
    ensures StepSafe(s, o, ReadAbandonedStep(s.db, s.attempts[o], ch))
  {
    var a := s.attempts[o];
    if Lists(ch.rows, s.db.launches, a.generation) {
      var b := ReadAbandonedStep(s.db, a, ch).attempt;
      ReadAbandonedMovable(s.db, a, ch.rows, s.log);
      MoveSafe(s, o, s.db, b, []);
    } else {
      var e := ReadAbandonedStep(s.db, a, ch);
      QuietStep(s, o, e);
    }
  }

  lemma ReadDurableMovable(db: Db, a: Attempt, log: seq<Event>)
    requires AttemptOk(db, a, log) && DbOk(db) && a.pc.ReadDurable?
    ensures Movable(db, a, ReadDurableStep(db, a).attempt, log)
  {
    var b := a.(durable := map k | k in db.launches && k.1 == a.generation :: db.launches[k]);
    if Owns(db, a) {
      assert b.durable == db.launches;
      TeardownReached(db.launches, b, |b.launched|, log);
    }
  }

  lemma ReadDurableSafe(s: System, o: Owner)
    requires Safe(s) && o in s.attempts && s.attempts[o].pc.ReadDurable?
    ensures StepSafe(s, o, ReadDurableStep(s.db, s.attempts[o]))
  {
    var db, a, log := s.db, s.attempts[o], s.log;
    var b := ReadDurableStep(db, a).attempt;
    ReadDurableMovable(db, a, log);
    MoveSafe(s, o, db, b, []);
  }

  // ---------------------------------------------------------------- transactions that write rows

  /** Forgotten rows were all settled, and none of them could belong to an attempt inside a provider call. */
  lemma NothingInFlight(s: System)
    requires Safe(s) && forall k | k in s.db.launches :: s.db.launches[k].phase != ProviderResuming
    ensures NoneArmed(s.attempts)
  {
    forall o, i | o in s.attempts && 0 <= i < |s.attempts[o].members| ensures !Armed(s.attempts[o], i) {
    }
  }

  lemma OthersUnarmed(s: System, o: Owner, db': Db, log': seq<Event>)
    requires Safe(s) && o in s.attempts && Owns(s.db, s.attempts[o]) && NoneArmed(s.attempts)
    requires db'.epoch == s.db.epoch && (db'.state == Resuming ==> db'.owner == s.db.owner)
    ensures forall p | p in s.attempts && p != o :: AttemptOk(db', s.attempts[p], log')
  {
    var db, log := s.db, s.log;
    forall p | p in s.attempts && p != o ensures AttemptOk(db', s.attempts[p], log') {
      var b := s.attempts[p];
      BystanderOk(db, db', b, log, log');
    }
  }

  lemma ExpiredSafe(s: System, o: Owner, b: Attempt)
    requires Safe(s) && o in s.attempts && InProgress(s.attempts[o]) && Movable(s.db, s.attempts[o], b, s.log)
    ensures StepSafe(s, o, Effect(s.db.(live := false), b, []))
  {
    var db' := s.db.(live := false);
    MoveSafe(s, o, db', b, []);
  }

  /** After recovery nothing stands and no row is in flight. */
  lemma RecoveredSettles(db: Db, a: Attempt, log: seq<Event>)
    requires DbOk(db) && StandingOk(db, log) && db.state == Resuming && a.generation == db.generation
    requires RecoveredUpTo(db.launches, a, |a.abandoned|, log)
    ensures forall k | k in db.launches :: db.launches[k].phase != ProviderResuming
    ensures forall m: MemberId :: Standing(log, m) == None
  {
    forall k | k in db.launches ensures db.launches[k].phase != ProviderResuming && Standing(log, k.0) == None {
      assert k == (k.0, a.generation);
      var i :| 0 <= i < |a.abandoned| && a.abandoned[i].0 == k.0;
    }
    assert forall m: MemberId | Standing(log, m).Some? ::
        (m, db.generation) in db.launches && (m, db.generation).0 == m;
  }

  lemma ForgetAbandonedSafe(s: System, o: Owner, ch: Choice)
    requires Safe(s) && o in s.attempts && s.attempts[o].pc.ForgetAbandoned? && s.attempts[o].token.Some?
    ensures StepSafe(s, o, ForgetAbandonedStep(s.db, s.attempts[o], ch))
  {
    var a := s.attempts[o];
    if !Current(s.db, a.token.value) {
      var b := a.(pc := Failed);
      MoveSafe(s, o, s.db, b, []);
    } else if ch.calls < 2 {
      var b := a.(pc := Failed);
      ExpiredSafe(s, o, b);
    } else {
      ForgetSafe(s, o);
    }
  }

  lemma ForgetSafe(s: System, o: Owner)
    requires Safe(s) && o in s.attempts && s.attempts[o].pc.ForgetAbandoned? && Owns(s.db, s.attempts[o])
    ensures var a := s.attempts[o];
            StepSafe(s, o, Effect(Cleared(MembersRolledBack(s.db, a.generation), a.generation),
                a.(pc := ReconcilePc(a, 0)), []))
  {
    var a := s.attempts[o];
    var db' := Cleared(MembersRolledBack(s.db, a.generation), a.generation);
    RecoveredSettles(s.db, a, s.log);
    NothingInFlight(s);
    assert db'.launches == map[];
    var log := s.log;
    var b := a.(pc := ReconcilePc(a, 0));
    var e := Effect(db', b, []);
    OthersUnarmed(s, o, db', log);
    ReconcileReached(db'.launches, a, 0, log);
    assert log == s.log + e.events;
    FactsSuffice(s, o, e, log);
  }

  predicate Launching(a: Attempt) {
    a.pc.Record? || a.pc.SetResuming? || a.pc.SetResumed? || a.pc.Install? || a.pc.Acknowledging? || a.pc.Commit?
  }

  /** A transaction of the launching half that fails leads into the teardown. */
  lemma GiveUpMovable(db: Db, a: Attempt, log: seq<Event>)
    requires AttemptOk(db, a, log) && Launching(a)
    ensures Movable(db, a, a.(pc := ReadDurable), log)
  {
    if Owns(db, a) {
      if a.pc.Record? {
        RowsAreWithin(db.launches, a, a.pc.i);
      } else if a.pc.SetResuming? {
        RowsWithAreWithin(db.launches, a, a.pc.i, Launched);
      } else if a.pc.SetResumed? {
        RowsWithAreWithin(db.launches, a, a.pc.i, ProviderResuming);
      } else {
        RowsAreWithin(db.launches, a, |a.members|);
      }
    }
  }

  lemma RecordSafe(s: System, o: Owner, i: nat)
    requires Safe(s) && o in s.attempts && s.attempts[o].pc == Record(i) && WellFormed(s.attempts[o])
    ensures StepSafe(s, o, RecordStep(s.db, s.attempts[o], i))
  {
    var a := s.attempts[o];
    if !Current(s.db, a.token.value) {
      GiveUpMovable(s.db, a, s.log);
      var b := a.(pc := ReadDurable);
      MoveSafe(s, o, s.db, b, []);
    } else {
      RecordedSafe(s, o, i);
    }
  }

  /** Before a launch is recorded there is no row for its member: nothing is overwritten. */
  lemma SlotIsFree(a: Attempt, i: nat)
    requires i < |a.launched| <= |a.members| && Distinct(a.members)
    ensures Slot(a, i) !in Rows(a.members, a.launched, a.generation, i)
  {
    RowsDomain(a.members, a.launched, a.generation, i);
    assert forall j | 0 <= j < i :: a.members[j].id != a.members[i].id;
  }

  lemma RowsSettled(a: Attempt, i: nat)
    requires i <= |a.launched| <= |a.members|
    ensures forall k | k in Rows(a.members, a.launched, a.generation, i) ::
              Rows(a.members, a.launched, a.generation, i)[k].phase != ProviderResuming
  {
    RowsDomain(a.members, a.launched, a.generation, i);
  }

  lemma RecordedReached(db: Db, a: Attempt, i: nat, log: seq<Event>)
    requires AttemptOk(db, a, log) && Owns(db, a) && a.pc == Record(i)
    ensures var m := a.members[i];
            Reaches(Recorded(db, m.id, a.generation, a.launched[i], m.provider).launches, a, if m.provider.Some?
                then SetResuming(i) else LaunchPc(a, i + 1), log)
  {
    if a.members[i].provider.None? {
      assert AllStanding(a, i + 1, log);
      LaunchReached(Recorded(db, a.members[i].id, a.generation, a.launched[i], None).launches, a, i + 1, log);
    }
  }

  lemma RecordedSafe(s: System, o: Owner, i: nat)
    requires Safe(s) && o in s.attempts && s.attempts[o].pc == Record(i) && WellFormed(s.attempts[o])
    requires Owns(s.db, s.attempts[o])
    requires Current(s.db, s.attempts[o].token.value)
    ensures StepSafe(s, o, RecordStep(s.db, s.attempts[o], i))
  {
    var a := s.attempts[o];
    var m := a.members[i];
    var db' := Recorded(s.db, m.id, a.generation, a.launched[i], m.provider);
    RowsSettled(a, i);
    NothingInFlight(s);
    SlotIsFree(a, i);
    var log := s.log;
    var e := RecordStep(s.db, a, i);
    OthersUnarmed(s, o, db', log);
    RecordedReached(s.db, a, i, log);
    assert log == s.log + e.events;
    FactsSuffice(s, o, e, log);
  }

  lemma SetResumingSafe(s: System, o: Owner, i: nat)
    requires Safe(s) && o in s.attempts && s.attempts[o].pc == SetResuming(i) && WellFormed(s.attempts[o])
    ensures StepSafe(s, o, SetResumingStep(s.db, s.attempts[o], i))
  {
    var a := s.attempts[o];
    if !Current(s.db, a.token.value) || Slot(a, i) !in s.db.launches {
      GiveUpMovable(s.db, a, s.log);
      var b := a.(pc := ReadDurable);
      MoveSafe(s, o, s.db, b, []);
    } else {
      ArmSafe(s, o, i);
    }
  }

  lemma RowsWithSettled(a: Attempt, i: nat, phase: Phase)
    requires i < |a.launched| <= |a.members| && phase != ProviderResuming
    ensures forall k | k in RowsWith(a, i, phase) :: RowsWith(a, i, phase)[k].phase != ProviderResuming
  {
    RowsSettled(a, i);
  }

  lemma ArmedAttempt(db: Db, a: Attempt, i: nat, log: seq<Event>)
    requires AttemptOk(db, a, log) && StandingOk(db, log) && Owns(db, a) && a.pc == SetResuming(i)
    ensures Slot(a, i) in db.launches
    ensures AttemptOk(Phased(db, a.members[i].id, a.generation, ProviderResuming),
                      a.(pc := if AsksProvider(a.members[i]) then Renew(ProviderResume(i)) else SetResumed(i)), log)
  {
    assert Standing(log, a.members[i].id) == None;
    assert RowsWith(a, i, Launched)[Slot(a, i) := Row(a.launched[i], a.members[i].provider, ProviderResuming)]
        == RowsWith(a, i, ProviderResuming);
  }

  /** The one step that arms an attempt: its row is its own, and no other attempt is in flight. */
  lemma ArmSafe(s: System, o: Owner, i: nat)
    requires Safe(s) && o in s.attempts && s.attempts[o].pc == SetResuming(i) && WellFormed(s.attempts[o])
    requires Owns(s.db, s.attempts[o])
    requires Current(s.db, s.attempts[o].token.value) && Slot(s.attempts[o], i) in s.db.launches
    ensures StepSafe(s, o, SetResumingStep(s.db, s.attempts[o], i))
  {
    var a := s.attempts[o];
    var db' := Phased(s.db, a.members[i].id, a.generation, ProviderResuming);
    RowsWithSettled(a, i, Launched);
    NothingInFlight(s);
    var log := s.log;
    var e := SetResumingStep(s.db, a, i);
    OthersUnarmed(s, o, db', log);
    ArmedAttempt(s.db, a, i, log);
    assert log == s.log + e.events;
    FactsSuffice(s, o, e, log);
  }

  lemma SetResumedSafe(s: System, o: Owner, i: nat)
    requires Safe(s) && o in s.attempts && s.attempts[o].pc == SetResumed(i) && WellFormed(s.attempts[o])
    ensures StepSafe(s, o, SetResumedStep(s.db, s.attempts[o], i))
  {
    var a := s.attempts[o];
    if !Current(s.db, a.token.value) || Slot(a, i) !in s.db.launches {
      GiveUpMovable(s.db, a, s.log);
      var b := a.(pc := ReadDurable);
      MoveSafe(s, o, s.db, b, []);
    } else {
      DisarmSafe(s, o, i);
    }
  }

  lemma DisarmedReached(db: Db, a: Attempt, i: nat, log: seq<Event>)
    requires AttemptOk(db, a, log) && Owns(db, a) && a.pc == SetResumed(i)
    ensures Slot(a, i) in db.launches
    ensures Reaches(Phased(db, a.members[i].id, a.generation, ProviderResumed).launches, a, LaunchPc(a, i + 1), log)
  {
    var db' := Phased(db, a.members[i].id, a.generation, ProviderResumed);
    assert db'.launches == Rows(a.members, a.launched, a.generation, i + 1);
    LaunchReached(db'.launches, a, i + 1, log);
  }

  /** Only the attempt's own row changes, and nobody else is in flight for that member. */
  lemma OthersStayArmed(s: System, o: Owner, i: nat, db': Db)
    requires Safe(s) && o in s.attempts && i < |s.attempts[o].members| && Armed(s.attempts[o], i)
    requires Owns(s.db, s.attempts[o])
    requires Slot(s.attempts[o], i) in s.db.launches
    requires db' == Phased(s.db, s.attempts[o].members[i].id, s.attempts[o].generation, ProviderResumed)
    ensures forall p | p in s.attempts && p != o :: AttemptOk(db', s.attempts[p], s.log)
  {
    var a := s.attempts[o];
    forall p | p in s.attempts && p != o ensures AttemptOk(db', s.attempts[p], s.log) {
      var b := s.attempts[p];
      forall j | 0 <= j < |b.members| && Armed(b, j) ensures Slot(b, j) != Slot(a, i) {
        assert b.members[j].id != a.members[i].id;
      }
      BystanderOk(s.db, db', b, s.log, s.log);
    }
  }

  lemma DisarmSafe(s: System, o: Owner, i: nat)
    requires Safe(s) && o in s.attempts && s.attempts[o].pc == SetResumed(i) && WellFormed(s.attempts[o])
    requires Owns(s.db, s.attempts[o])
    requires Current(s.db, s.attempts[o].token.value) && Slot(s.attempts[o], i) in s.db.launches
    ensures StepSafe(s, o, SetResumedStep(s.db, s.attempts[o], i))
  {
    var a := s.attempts[o];
    assert Armed(a, i);
    var log := s.log;
    var db', b := Phased(s.db, a.members[i].id, a.generation, ProviderResumed), a.(pc := LaunchPc(a, i + 1));
    OthersStayArmed(s, o, i, db');
    DisarmedAttempt(s.db, a, i, log, b);
    DisarmedStore(s.db, a, i, log);
    var e := Effect(db', b, []);
    UnarmedStep(s, o, e);
    assert e == SetResumedStep(s.db, a, i);
  }

  /** A silent step that leaves the attempt unarmed. */
  lemma UnarmedStep(s: System, o: Owner, e: Effect)
    requires Safe(s) && o in s.attempts && e.events == [] && DbOk(e.db) && StandingOk(e.db, s.log)
    requires SameIdentity(s.attempts[o], e.attempt) && AttemptOk(e.db, e.attempt, s.log)
    requires forall p | p in s.attempts && p != o :: AttemptOk(e.db, s.attempts[p], s.log)
    requires forall j | 0 <= j < |e.attempt.members| :: !Armed(e.attempt, j)
    ensures StepSafe(s, o, e)
  {
    var log := s.log;
    assert log == s.log + e.events;
    FactsSuffice(s, o, e, log);
  }

  lemma DisarmedAttempt(db: Db, a: Attempt, i: nat, log: seq<Event>, b: Attempt)
    requires AttemptOk(db, a, log) && Owns(db, a) && a.pc == SetResumed(i) && Slot(a, i) in db.launches
    requires b == a.(pc := LaunchPc(a, i + 1))
    ensures AttemptOk(Phased(db, a.members[i].id, a.generation, ProviderResumed), b, log)
    ensures forall j | 0 <= j < |b.members| :: !Armed(b, j)
  {
    DisarmedReached(db, a, i, log);
  }

  lemma DisarmedStore(db: Db, a: Attempt, i: nat, log: seq<Event>)
    requires DbOk(db) && StandingOk(db, log) && AttemptOk(db, a, log) && Owns(db, a) && a.pc == SetResumed(i)
    requires Slot(a, i) in db.launches
    ensures var db' := Phased(db, a.members[i].id, a.generation, ProviderResumed); DbOk(db') && StandingOk(db', log)
  {
    assert Armed(a, i);
  }

  // ---------------------------------------------------------------- installing, delivering, committing, releasing

  lemma {:induction false} InstallLeavesRows(db: Db, a: Attempt, n: nat)
    requires n <= |a.launched| <= |a.members|
    ensures InstallAll(db, a, n) == db.(residents := InstallAll(db, a, n).residents)
  {
    if n > 0 { InstallLeavesRows(db, a, n - 1); }
  }

  lemma InstallSafe(s: System, o: Owner, ch: Choice)
    requires Safe(s) && o in s.attempts && s.attempts[o].pc.Install? && WellFormed(s.attempts[o])
    ensures StepSafe(s, o, InstallStep(s.db, s.attempts[o], ch))
  {
    var a := s.attempts[o];
    GiveUpMovable(s.db, a, s.log);
    if |a.launched| > 0 && !Current(s.db, a.token.value) {
      var b := a.(pc := ReadDurable);
      MoveSafe(s, o, s.db, b, []);
    } else if ch.calls < |a.launched| {
      var b := a.(pc := ReadDurable);
      ExpiredSafe(s, o, b);
    } else {
      InstalledSafe(s, o);
    }
  }

  lemma InstalledSafe(s: System, o: Owner)
    requires Safe(s) && o in s.attempts && s.attempts[o].pc.Install? && WellFormed(s.attempts[o])
    ensures var a := s.attempts[o];
              StepSafe(s, o, Effect(InstallAll(s.db, a, |a.launched|), a.(pc := Renew(Reattach)), []))
  {
    var a := s.attempts[o];
    var db' := InstallAll(s.db, a, |a.launched|);
    var b := a.(pc := Renew(Reattach));
    InstallLeavesRows(s.db, a, |a.launched|);
    MoveSafe(s, o, db', b, []);
  }

  lemma FetchMovable(db: Db, a: Attempt, i: nat, pending: seq<Delivery>, log: seq<Event>)
    requires AttemptOk(db, a, log) && a.pc == Fetch(i)
    ensures Movable(db, a, a.(pc := FetchPc(a, i + 1)), log) && Movable(db, a, a.(pc := DeliverPc(a, i, pending)), log)
  {
    if Owns(db, a) {
      FetchReached(db.launches, a, i + 1, log);
      DeliverReached(db.launches, a, i, pending, log);
    }
  }

  lemma FetchSafe(s: System, o: Owner, i: nat, ch: Choice)
    requires Safe(s) && o in s.attempts && s.attempts[o].pc == Fetch(i) && WellFormed(s.attempts[o])
    ensures StepSafe(s, o, FetchStep(s.db, s.attempts[o], i, ch))
  {
    var a := s.attempts[o];
    var e := FetchStep(s.db, a, i, ch);
    FetchMovable(s.db, a, i, ch.pending, s.log);
    if e.attempt == a {
      QuietStep(s, o, e);
    } else {
      var b := e.attempt;
      MoveSafe(s, o, s.db, b, e.events);
    }
  }

  lemma AcknowledgeMovable(db: Db, a: Attempt, i: nat, rest: seq<Delivery>, log: seq<Event>)
    requires AttemptOk(db, a, log) && a.pc == Acknowledging(i, rest)
    ensures Movable(db, a, a.(pc := Checking(Deliver(i, rest))), log)
  {
  }

  lemma AcknowledgeSafe(s: System, o: Owner, i: nat, rest: seq<Delivery>)
    requires Safe(s) && o in s.attempts && s.attempts[o].pc == Acknowledging(i, rest) && WellFormed(s.attempts[o])
    ensures StepSafe(s, o, AcknowledgeStep(s.db, s.attempts[o], i, rest))
  {
    var db, a, log := s.db, s.attempts[o], s.log;
    var e := AcknowledgeStep(db, a, i, rest);
    var db', b := e.db, e.attempt;
    if e.events == [] {
      GiveUpMovable(db, a, log);
    } else {
      AcknowledgeMovable(db, a, i, rest, log);
    }
    MoveSafe(s, o, db', b, e.events);
  }

  /** Once the channel leaves the resuming state with no row and nothing standing, nobody owns anything. */
  lemma ClosedSafe(s: System, o: Owner, db': Db, b: Attempt, e: Event)
    requires Safe(s) && o in s.attempts && Owns(s.db, s.attempts[o]) && NoneArmed(s.attempts)
    requires db'.state != Resuming && db'.launches == map[] && db'.epoch == s.db.epoch
    requires SameIdentity(s.attempts[o], b) && WellFormed(b) && !b.pc.FetchToken?
    requires forall i | 0 <= i < |b.members| :: !Armed(b, i)
    requires !e.ResumeCalled? && !e.RolledBack?
    requires forall m: MemberId :: Standing(s.log + [e], m) == None
    ensures StepSafe(s, o, Effect(db', b, [e]))
  {
    var log' := s.log + [e];
    var effect := Effect(db', b, [e]);
    LogSafeNext(s.log, e);
    OthersUnarmed(s, o, db', log');
    FactsSuffice(s, o, effect, log');
  }

  lemma CommitSafe(s: System, o: Owner, ch: Choice)
    requires Safe(s) && o in s.attempts && s.attempts[o].pc.Commit? && WellFormed(s.attempts[o])
    ensures StepSafe(s, o, CommitStep(s.db, s.attempts[o], ch))
  {
    var a := s.attempts[o];
    GiveUpMovable(s.db, a, s.log);
    if !Current(s.db, a.token.value) {
      var b := a.(pc := ReadDurable);
      MoveSafe(s, o, s.db, b, []);
    } else if ch.calls < 3 {
      var b := a.(pc := ReadDurable);
      ExpiredSafe(s, o, b);
    } else {
      CommittedSafe(s, o, ch);
    }
  }

  lemma CommittedSafe(s: System, o: Owner, ch: Choice)
    requires Safe(s) && o in s.attempts && s.attempts[o].pc.Commit? && WellFormed(s.attempts[o])
    requires Current(s.db, s.attempts[o].token.value) && ch.calls >= 3
    ensures StepSafe(s, o, CommitStep(s.db, s.attempts[o], ch))
  {
    var a := s.attempts[o];
    var e := CommitStep(s.db, a, ch);
    RowsSettled(a, |a.members|);
    NothingInFlight(s);
    assert e.db.launches == map[];
    forall m: MemberId ensures Standing(s.log + e.events, m) == None { StandingNext(s.log, e.events[0], m); }
    var db', b := e.db, e.attempt;
    ClosedSafe(s, o, db', b, e.events[0]);
  }

  /** A complete teardown leaves nothing standing: every row belongs to a launched member. */
  lemma TeardownSettles(db: Db, a: Attempt, log: seq<Event>)
    requires DbOk(db) && StandingOk(db, log) && db.state == Resuming && a.generation == db.generation
    requires |a.launched| <= |a.members|
    requires TeardownOk(db.launches, a, 0, log) && a.teardownOk && !Ambiguous(a.durable)
    ensures forall k | k in db.launches :: db.launches[k].phase != ProviderResuming
    ensures forall m: MemberId :: Standing(log, m) == None
  {
    forall k | k in db.launches ensures db.launches[k].phase == Launched || Standing(log, k.0) == None {
      var j :| 0 <= j < |a.launched| && j < |a.members| && k == Slot(a, j)
          && db.launches[k].provider == a.members[j].provider;
      assert db.launches[k].phase == Launched || LaunchedNeedsRollback(a, j);
    }
    assert forall m: MemberId | Standing(log, m).Some? ::
        (m, db.generation) in db.launches && (m, db.generation).0 == m;
  }

  lemma ReleaseSafe(s: System, o: Owner, ch: Choice)
    requires Safe(s) && o in s.attempts && s.attempts[o].pc.Release? && WellFormed(s.attempts[o])
    ensures StepSafe(s, o, ReleaseStep(s.db, s.attempts[o], ch))
  {
    var a := s.attempts[o];
    var b := a.(pc := Failed);
    if !Current(s.db, a.token.value) {
      MoveSafe(s, o, s.db, b, []);
    } else if ch.calls == 0 {
      ExpiredSafe(s, o, b);
    } else if ch.calls == 1 {
      var db' := MembersRolledBack(s.db, a.generation).(live := false);
      MoveSafe(s, o, db', b, []);
    } else if ch.calls == 2 {
      HalfReleasedSafe(s, o);
    } else {
      ReleasedSafe(s, o, ch);
    }
  }

  lemma HalfReleasedSafe(s: System, o: Owner)
    requires Safe(s) && o in s.attempts && s.attempts[o].pc.Release? && Owns(s.db, s.attempts[o])
    ensures var a := s.attempts[o];
            StepSafe(s, o, Effect(Cleared(MembersRolledBack(s.db, a.generation), a.generation).(live := false),
                a.(pc := Failed), []))
  {
    var a := s.attempts[o];
    var db' := Cleared(MembersRolledBack(s.db, a.generation), a.generation).(live := false);
    TeardownSettles(s.db, a, s.log);
    NothingInFlight(s);
    assert db'.launches == map[];
    var log := s.log;
    var b := a.(pc := Failed);
    var e := Effect(db', b, []);
    OthersUnarmed(s, o, db', log);
    assert log == s.log + e.events;
    FactsSuffice(s, o, e, log);
  }

  lemma ReleasedSafe(s: System, o: Owner, ch: Choice)
    requires Safe(s) && o in s.attempts && s.attempts[o].pc.Release? && WellFormed(s.attempts[o])
    requires Current(s.db, s.attempts[o].token.value) && ch.calls >= 3
    ensures StepSafe(s, o, ReleaseStep(s.db, s.attempts[o], ch))
  {
    var a := s.attempts[o];
    var e := ReleaseStep(s.db, a, ch);
    TeardownSettles(s.db, a, s.log);
    NothingInFlight(s);
    assert e.db.launches == map[];
    forall m: MemberId ensures Standing(s.log + e.events, m) == None { StandingNext(s.log, e.events[0], m); }
    var db', b := e.db, e.attempt;
    ClosedSafe(s, o, db', b, e.events[0]);
  }

  // ---------------------------------------------------------------- any step, any run

  lemma CallStepSafe(s: System, o: Owner, ch: Choice)
    requires Safe(s) && o in s.attempts && WellFormed(s.attempts[o])
    requires var pc := s.attempts[o].pc; pc.Renew? || pc.Running? || pc.Checking?
    ensures StepSafe(s, o, Step(s.db, s.attempts[o], ch))
  {
    match s.attempts[o].pc
    case Renew(op) => RenewSafe(s, o, op, ch);
    case Running(op) => RunningSafe(s, o, op, ch);
    case Checking(op) => CheckingSafe(s, o, op, ch);
  }

  lemma LaunchStepSafe(s: System, o: Owner, ch: Choice)
    requires Safe(s) && o in s.attempts && WellFormed(s.attempts[o])
    requires var pc := s.attempts[o].pc; pc.Record? || pc.SetResuming? || pc.SetResumed? || pc.Install?
    ensures StepSafe(s, o, Step(s.db, s.attempts[o], ch))
  {
    match s.attempts[o].pc
    case Record(i) => RecordSafe(s, o, i);
    case SetResuming(i) => SetResumingSafe(s, o, i);
    case SetResumed(i) => SetResumedSafe(s, o, i);
    case Install => InstallSafe(s, o, ch);
  }

  lemma ClosingStepSafe(s: System, o: Owner, ch: Choice)
    requires Safe(s) && o in s.attempts && WellFormed(s.attempts[o])
    requires var pc := s.attempts[o].pc; pc.Fetch? || pc.Acknowledging? || pc.Commit? || pc.Release?
    ensures StepSafe(s, o, Step(s.db, s.attempts[o], ch))
  {
    match s.attempts[o].pc
    case Fetch(i) => FetchSafe(s, o, i, ch);
    case Acknowledging(i, rest) => AcknowledgeSafe(s, o, i, rest);
    case Commit => CommitSafe(s, o, ch);
    case Release => ReleaseSafe(s, o, ch);
  }

  lemma OpeningStepSafe(s: System, o: Owner, ch: Choice)
    requires Safe(s) && o in s.attempts && WellFormed(s.attempts[o])
    requires var pc := s.attempts[o].pc;
               pc.Claim? || pc.FetchToken? || pc.ReadAbandoned? || pc.ForgetAbandoned? || pc.ReadDurable?
    ensures StepSafe(s, o, Step(s.db, s.attempts[o], ch))
  {
    match s.attempts[o].pc
    case Claim => ClaimSafe(s, o);
    case FetchToken => FetchTokenSafe(s, o);
    case ReadAbandoned => ReadAbandonedSafe(s, o, ch);
    case ForgetAbandoned => ForgetAbandonedSafe(s, o, ch);
    case ReadDurable => ReadDurableSafe(s, o);
  }

  lemma AnyStepSafe(s: System, o: Owner, ch: Choice)
    requires Safe(s) && o in s.attempts && WellFormed(s.attempts[o])
    ensures StepSafe(s, o, Step(s.db, s.attempts[o], ch))
  {
    var pc := s.attempts[o].pc;
    if pc.Renew? || pc.Running? || pc.Checking? {
      CallStepSafe(s, o, ch);
    } else if pc.Record? || pc.SetResuming? || pc.SetResumed? || pc.Install? {
      LaunchStepSafe(s, o, ch);
    } else if pc.Fetch? || pc.Acknowledging? || pc.Commit? || pc.Release? {
      ClosingStepSafe(s, o, ch);
    } else if pc.Finished? || pc.Failed? || pc.Crashed? {
      var e := Stay(s.db, s.attempts[o]);
      QuietStep(s, o, e);
    } else {
      OpeningStepSafe(s, o, ch);
    }
  }
}
