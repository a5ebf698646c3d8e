/** A resume that fails is given up: as long as its own rows are unambiguous, its teardown gives the claim back. */
module ResumeTeardown {
  import opened Options
  import opened BlueprintStore
  import opened ResumeSaga
  import opened ResumeSafety
  import opened ResumeSteps
  import opened ResumeTheorems
  import opened ResumeHistory
  import opened ResumeProgress

  // ---------------------------------------------------------------- when the teardown has failed

  predicate Tears(op: Op) {
    op.StopLaunched? || op.RollbackLaunched?
  }

  /** Only a stop or rollback of the teardown itself can make it fail, and then there is no way back. */
  predicate FailsOnlyInTeardown(a: Attempt) {
    !a.teardownOk ==>
      a.pc.Failed? || a.pc.Crashed? || ((a.pc.Renew? || a.pc.Running? || a.pc.Checking?) && Tears(a.pc.op))
  }

  lemma FailFails(a: Attempt, op: Op)
    requires OpOk(a, op) && (a.teardownOk || Tears(op))
    ensures FailsOnlyInTeardown(Fail(a, op))
  {
  }

  lemma SucceedFails(a: Attempt, op: Op)
    requires OpOk(a, op) && (op.Launch? ==> a.arrived.Some?) && (a.teardownOk || Tears(op))
    ensures FailsOnlyInTeardown(Succeed(a, op))
  {
  }

  lemma CallFails(db: Db, a: Attempt, ch: Choice)
    requires WellFormed(a) && FailsOnlyInTeardown(a) && (a.pc.Renew? || a.pc.Running? || a.pc.Checking?)
    ensures FailsOnlyInTeardown(Step(db, a, ch).attempt)
  {
    FailFails(a, a.pc.op);
    if a.pc.Checking? { SucceedFails(a, a.pc.op); }
  }

  lemma OtherFails(db: Db, a: Attempt, ch: Choice)
    requires WellFormed(a) && FailsOnlyInTeardown(a) && !a.pc.Renew? && !a.pc.Running? && !a.pc.Checking?
    ensures Step(db, a, ch).attempt.teardownOk == a.teardownOk
    ensures FailsOnlyInTeardown(Step(db, a, ch).attempt)
  {
  }

  ghost predicate AllFailOnlyInTeardown(s: System) {
    forall o | o in s.attempts :: FailsOnlyInTeardown(s.attempts[o])
  }

  lemma {:induction false} RunFails(start: System, actions: seq<Action>)
    requires Start(start)
    ensures AllFailOnlyInTeardown(Run(start, actions))
  {
    if actions != [] {
      RunFails(start, actions[..|actions| - 1]);
      var s, last := Run(start, actions[..|actions| - 1]), actions[|actions| - 1];
      if last.Advance? && last.owner in s.attempts && WellFormed(s.attempts[last.owner]) {
        var a := s.attempts[last.owner];
        if a.pc.Renew? || a.pc.Running? || a.pc.Checking? { CallFails(s.db, a, last.choice); } else {
          OtherFails(s.db, a, last.choice);
        }
      }
    }
  }

  // ---------------------------------------------------------------- the teardown goes through

  /** The attempt is in its teardown, nothing of which has failed, and no row of its own is ambiguous. */
  predicate TearingDownWell(a: Attempt) {
    a.teardownOk && !Ambiguous(a.durable) && |a.launched| <= |a.members|
  }

  lemma TeardownPcStays(a: Attempt, b: Attempt, n: nat)
    requires b.teardownOk == a.teardownOk && b.durable == a.durable
    ensures TeardownPc(b, n) == TeardownPc(a, n)
    ensures TearingDownWell(a) ==> !TeardownPc(a, n).Failed?
  {
  }

  lemma StopGoes(s: System, o: Owner, i: nat) returns (more: seq<Action>)
    requires InCharge(s, o) && s.attempts[o].pc == Renew(StopLaunched(i)) && TearingDownWell(s.attempts[o])
    ensures var s' := Run(s, more);
            GoesOn(s, s', o) && s'.attempts[o] == s.attempts[o].(pc := TeardownPc(s.attempts[o], i))
  {
    var a := s.attempts[o];
    AttemptIsWellFormed(s, o);
    TeardownPcStays(a, Answered(a, StopLaunched(i)), i);
    more := CallGoes(s, o, StopLaunched(i));
    if LaunchedNeedsRollback(a, i) {
      var s1 := Run(s, more);
      AttemptIsWellFormed(s1, o);
      TeardownPcStays(a, Answered(s1.attempts[o], RollbackLaunched(i)), i);
      var rest := CallGoes(s1, o, RollbackLaunched(i));
      RunThen(s, more, rest);
      more := more + rest;
      GoesOnTransitive(s, s1, Run(s, more), o);
    }
  }

  lemma {:induction false} AllStop(s: System, o: Owner, n: nat) returns (more: seq<Action>)
    requires InCharge(s, o) && TearingDownWell(s.attempts[o]) && s.attempts[o].pc == TeardownPc(s.attempts[o], n)
    ensures var s' := Run(s, more);
            GoesOn(s, s', o) && s'.attempts[o] == s.attempts[o].(pc := Renew(RollbackGeneration))
    decreases n
  {
    GoesOnItself(s, o);
    more := [];
    if n > 0 {
      more := StopGoes(s, o, n - 1);
      var s1 := Run(s, more);
      var rest := AllStop(s1, o, n - 1);
      RunThen(s, more, rest);
      more := more + rest;
      GoesOnTransitive(s, s1, Run(s, more), o);
    }
  }

  lemma ReadGoesOn(s: System, o: Owner)
    requires InCharge(s, o) && s.attempts[o].pc == ReadDurable && s.attempts[o].teardownOk && Unambiguous(s.db)
    ensures var s', a := Next(s, Go(o, 0)), s.attempts[o];
            var b := a.(durable := LaunchesOf(s.db, a.generation));
            GoesOn(s, s', o) && TearingDownWell(b) && s'.attempts[o] == b.(pc := TeardownPc(b, |a.launched|))
  {
    Steps(s, o, Go(o, 0).choice);
  }

  lemma ReleaseGoes(s: System, o: Owner)
    requires InCharge(s, o) && s.attempts[o].pc == Release
    ensures var s' := Next(s, Go(o, 0));
            && s'.db.state == Suspended && s'.db.launches == map[] && s'.attempts[o].pc == Failed
            && s'.log == s.log + [Freed(s.attempts[o].token.value, s.attempts[o].launched)]
  {
    Steps(s, o, Go(o, 0).choice);
    assert DbOk(Next(s, Go(o, 0)).db);
  }

  /**
   A failed resume is given up. In every run, a call that has failed, that still holds the lease and whose
   rows are unambiguous can stop and roll back what it launched and give the claim back: the channel is
   suspended again with no row left, ready for the next call.
   */
  lemma FailureIsGivenUp(start: System, before: seq<Action>, o: Owner) returns (more: seq<Action>)
    requires Start(start)
    requires var s := Run(start, before);
             && o in s.attempts && s.attempts[o].pc == ReadDurable
             && s.attempts[o].token.Some? && Current(s.db, s.attempts[o].token.value)
             && forall k | k in s.db.launches :: s.db.launches[k].phase != ProviderResuming
    ensures var s, s' := Run(start, before), Run(start, before + more);
            && s'.db.state == Suspended && s'.db.launches == map[]
            && s'.log != [] && s'.log[|s'.log| - 1] == Freed(s.attempts[o].token.value, s.attempts[o].launched)
  {
    var s := Run(start, before);
    RunSafe(start, before);
    RunFails(start, before);
    var a := s.attempts[o];
    assert FailsOnlyInTeardown(a);
    ReadGoesOn(s, o);
    RunOne(s, Go(o, 0));
    more := [Go(o, 0)];
    var s1 := Run(s, more);
    TeardownPcStays(a.(durable := LaunchesOf(s.db, a.generation)), s1.attempts[o], |a.launched|);
    more := TeardownRuns(s, s1, o, more);
    RunThen(start, before, more);
  }

  lemma TeardownRuns(s: System, s1: System, o: Owner, first: seq<Action>) returns (more: seq<Action>)
    requires s1 == Run(s, first) && InCharge(s1, o) && TearingDownWell(s1.attempts[o])
    requires s1.attempts[o].pc == TeardownPc(s1.attempts[o], |s1.attempts[o].launched|)
    ensures var s' := Run(s, more);
            && s'.db.state == Suspended && s'.db.launches == map[]
            && s'.log != [] && s'.log[|s'.log| - 1] == Freed(s1.attempts[o].token.value, s1.attempts[o].launched)
  {
    var stop := AllStop(s1, o, |s1.attempts[o].launched|);
    RunThen(s, first, stop);
    var s2 := Run(s1, stop);
    AttemptIsWellFormed(s2, o);
    var call := CallGoes(s2, o, RollbackGeneration);
    RunThen(s, first + stop, call);
    var s3 := Run(s2, call);
    ReleaseGoes(s3, o);
    more := RunMore(s, first + stop + call, Go(o, 0));
  }
}
