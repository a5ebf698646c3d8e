/**
 A resume gets through. From whatever a crash left behind, as long as no row says that a provider may or
 may not have resumed, one more call with the same key recovers, resumes every member, delivers what is
 pending and commits; and otherwise no call ever does.
 */
module ResumeProgress {
  import opened Options
  import opened BlueprintStore
  import opened ResumeSaga
  import opened ResumeSafety
  import opened ResumeSteps
  import opened ResumeTheorems
  import opened ResumeHistory
  import opened ResumeRuns

  // ---------------------------------------------------------------- steps that go well

  /** Everything goes well: calls return, the heartbeat never fires, no lease runs out within `n` calls. */
  function Go(o: Owner, n: nat): Action {
    Advance(o, Choice(Returns, Runtime("", ""), true, false, [], [], n + 3))
  }

  function GoWith(o: Owner, rows: seq<(MemberId, Row)>, pending: seq<Delivery>): Action {
    Advance(o, Choice(Returns, Runtime("", ""), true, false, rows, pending, 3))
  }

  /** The attempt of `o` holds the lease, in a safe system. */
  ghost predicate InCharge(s: System, o: Owner) {
    && Safe(s) && o in s.attempts && s.attempts[o].token.Some? && Current(s.db, s.attempts[o].token.value)
    && !s.attempts[o].pc.Finished? && !s.attempts[o].pc.Failed? && !s.attempts[o].pc.Crashed?
  }

  /** The same call with the same lease, over the same queue; acknowledgements are only added. */
  predicate SameCall(a: Attempt, b: Attempt) {
    && b.owner == a.owner && b.key == a.key && b.generation == a.generation && b.members == a.members
    && b.token == a.token
  }

  predicate SameLease(db: Db, db': Db) {
    && db'.state == db.state && db'.key == db.key && db'.owner == db.owner && db'.epoch == db.epoch
    && db'.live == db.live && db'.generation == db.generation && db'.queue == db.queue && db.acks <= db'.acks
  }

  ghost predicate GoesOn(s: System, s': System, o: Owner) {
    && InCharge(s, o) && InCharge(s', o) && SameCall(s.attempts[o], s'.attempts[o]) && SameLease(s.db, s'.db)
  }

  lemma GoesOnTransitive(s: System, s': System, s'': System, o: Owner)
    requires GoesOn(s, s', o) && GoesOn(s', s'', o)
    ensures GoesOn(s, s'', o)
  {
  }

  lemma GoesOnItself(s: System, o: Owner)
    requires InCharge(s, o)
    ensures GoesOn(s, s, o)
  {
  }

  lemma {:induction false} RunThen(s: System, first: seq<Action>, more: seq<Action>)
    ensures Run(s, first + more) == Run(Run(s, first), more)
    decreases |more|
  {
    if more == [] {
      assert first + more == first;
    } else {
      var init := more[..|more| - 1];
      RunThen(s, first, init);
      assert (first + more)[..|first + more| - 1] == first + init;
    }
  }

  lemma RunOne(s: System, action: Action)
    ensures Run(s, [action]) == Next(s, action)
  {
    assert [action][..0] == [];
    assert Run(s, []) == s;
  }

  /** One action after a run. */
  lemma RunMore(s: System, first: seq<Action>, action: Action) returns (all: seq<Action>)
    ensures Run(s, all) == Next(Run(s, first), action)
  {
    all := first + [action];
    RunThen(s, first, [action]);
    RunOne(Run(s, first), action);
  }

  lemma AttemptIsWellFormed(s: System, o: Owner)
    requires Safe(s) && o in s.attempts
    ensures WellFormed(s.attempts[o])
  {
  }

  lemma Steps(s: System, o: Owner, ch: Choice)
    requires Safe(s) && o in s.attempts
    ensures Safe(Next(s, Advance(o, ch))) && WellFormed(s.attempts[o])
    ensures Next(s, Advance(o, ch)) == After(s, o, Step(s.db, s.attempts[o], ch))
  {
    AttemptIsWellFormed(s, o);
    NextSafe(s, Advance(o, ch));
  }

  // ---------------------------------------------------------------- calls

  lemma RenewGoes(s: System, o: Owner, op: Op, n: nat)
    requires InCharge(s, o) && s.attempts[o].pc == Renew(op)
    ensures var s' := Next(s, Go(o, n));
            GoesOn(s, s', o) && s'.db == s.db && s'.attempts[o] == s.attempts[o].(pc := Running(op))
  {
    Steps(s, o, Go(o, n).choice);
  }

  lemma RunningGoes(s: System, o: Owner, op: Op, n: nat)
    requires InCharge(s, o) && s.attempts[o].pc == Running(op) && !op.Deliver?
    requires op.StopAbandoned? ==> op.i < |s.attempts[o].abandoned| && !NeedsRollback(s.attempts[o].abandoned[op.i].1)
    ensures var s' := Next(s, Go(o, n));
            var a := s.attempts[o];
            GoesOn(s, s', o) && s'.db == s.db
            && s'.attempts[o] == a.(pc := Checking(op),
                                    arrived := if op.Launch? then Some(Runtime("", "")) else a.arrived)
  {
    Steps(s, o, Go(o, n).choice);
  }

  lemma CheckingGoes(s: System, o: Owner, op: Op, n: nat)
    requires InCharge(s, o) && s.attempts[o].pc == Checking(op)
    requires OpOk(s.attempts[o], op) && (op.Launch? ==> s.attempts[o].arrived.Some?)
    requires var b := Succeed(s.attempts[o], op); !b.pc.Failed?
    ensures var s' := Next(s, Go(o, n));
            GoesOn(s, s', o) && s'.db == s.db && s'.attempts[o] == Succeed(s.attempts[o], op)
  {
    Steps(s, o, Go(o, n).choice);
    SucceedKeepsCall(s.attempts[o], op);
  }

  lemma SucceedKeepsCall(a: Attempt, op: Op)
    requires OpOk(a, op) && (op.Launch? ==> a.arrived.Some?) && a.pc == Checking(op)
    ensures var b := Succeed(a, op); SameCall(a, b) && !b.pc.Finished? && !b.pc.Crashed?
  {
  }

  /** Two more actions after the first. */
  lemma RunTwo(s: System, a: Action, b: Action)
    ensures Run(s, [a, b]) == Next(Next(s, a), b)
  {
    RunOne(s, a);
    assert [a, b][..1] == [a];
  }

  lemma RunThree(s: System, a: Action, b: Action, c: Action)
    ensures Run(s, [a, b, c]) == Next(Next(Next(s, a), b), c)
  {
    RunTwo(s, a, b);
    assert [a, b, c][..2] == [a, b];
  }

  /** The attempt when the call has returned and is about to be checked. */
  function Answered(a: Attempt, op: Op): Attempt {
    a.(pc := Checking(op), arrived := if op.Launch? then Some(Runtime("", "")) else a.arrived)
  }

  /** A call: renewed, returned, renewed again. */
  lemma CallGoes(s: System, o: Owner, op: Op) returns (more: seq<Action>)
    requires InCharge(s, o) && s.attempts[o].pc == Renew(op) && !op.Deliver?
    requires OpOk(s.attempts[o], op) && !Succeed(Answered(s.attempts[o], op), op).pc.Failed?
    requires op.StopAbandoned? ==> !NeedsRollback(s.attempts[o].abandoned[op.i].1)
    ensures var s' := Run(s, more);
            GoesOn(s, s', o) && s'.db == s.db && s'.attempts[o] == Succeed(Answered(s.attempts[o], op), op)
  {
    var s1 := Next(s, Go(o, 0));
    RenewGoes(s, o, op, 0);
    var s2 := Next(s1, Go(o, 0));
    RunningGoes(s1, o, op, 0);
    CheckingGoes(s2, o, op, 0);
    more := [Go(o, 0), Go(o, 0), Go(o, 0)];
    RunThree(s, Go(o, 0), Go(o, 0), Go(o, 0));
  }

  // ---------------------------------------------------------------- recovery

  /** No row says that a provider may or may not have resumed. */
  predicate NoneAmbiguous(abandoned: seq<(MemberId, Row)>) {
    forall i | 0 <= i < |abandoned| :: abandoned[i].1.phase != ProviderResuming
  }

  lemma StopThenRollback(s: System, o: Owner, i: nat)
    requires InCharge(s, o) && s.attempts[o].pc == Running(StopAbandoned(i))
    requires i < |s.attempts[o].abandoned| && NeedsRollback(s.attempts[o].abandoned[i].1)
    ensures var s' := Next(s, Go(o, 0));
            GoesOn(s, s', o) && s'.db == s.db && s'.attempts[o] == s.attempts[o].(pc := Running(RollbackAbandoned(i)))
  {
    Steps(s, o, Go(o, 0).choice);
  }

  lemma AbandonedPcStays(a: Attempt, b: Attempt, i: nat)
    requires b.abandoned == a.abandoned && b.members == a.members
    ensures AbandonedPc(b, i) == AbandonedPc(a, i)
  {
  }

  /** An abandoned launch whose provider had resumed: its rollback is called. */
  lemma RollbackReturns(s: System, o: Owner, i: nat)
    requires InCharge(s, o) && s.attempts[o].pc == Running(StopAbandoned(i))
    requires i < |s.attempts[o].abandoned| && NeedsRollback(s.attempts[o].abandoned[i].1)
    ensures var s' := Next(Next(s, Go(o, 0)), Go(o, 0));
            GoesOn(s, s', o) && s'.db == s.db && s'.attempts[o] == s.attempts[o].(pc := Checking(RollbackAbandoned(i)))
  {
    StopThenRollback(s, o, i);
    var s1 := Next(s, Go(o, 0));
    RunningGoes(s1, o, RollbackAbandoned(i), 0);
    GoesOnTransitive(s, s1, Next(s1, Go(o, 0)), o);
  }

  lemma RollbackIsChecked(s: System, o: Owner, i: nat)
    requires InCharge(s, o) && s.attempts[o].pc == Checking(RollbackAbandoned(i))
    requires i < |s.attempts[o].abandoned| && NoneAmbiguous(s.attempts[o].abandoned)
    ensures var s' := Next(s, Go(o, 0));
            GoesOn(s, s', o) && s'.db == s.db
            && s'.attempts[o] == s.attempts[o].(pc := AbandonedPc(s.attempts[o], i + 1))
  {
    AttemptIsWellFormed(s, o);
    CheckingGoes(s, o, RollbackAbandoned(i), 0);
  }

  lemma AbandonedIsRolledBack(s: System, o: Owner, i: nat) returns (more: seq<Action>)
    requires InCharge(s, o) && s.attempts[o].pc == Renew(StopAbandoned(i))
    requires i < |s.attempts[o].abandoned| && NoneAmbiguous(s.attempts[o].abandoned)
    requires NeedsRollback(s.attempts[o].abandoned[i].1)
    ensures var s' := Run(s, more);
            GoesOn(s, s', o) && s'.db == s.db
            && s'.attempts[o] == s.attempts[o].(pc := AbandonedPc(s.attempts[o], i + 1))
  {
    var go := Go(o, 0);
    RenewGoes(s, o, StopAbandoned(i), 0);
    var s1 := Next(s, go);
    RollbackReturns(s1, o, i);
    var s2 := Next(Next(s1, go), go);
    GoesOnTransitive(s, s1, s2, o);
    RollbackIsChecked(s2, o, i);
    GoesOnTransitive(s, s2, Next(s2, go), o);
    AbandonedPcStays(s.attempts[o], s2.attempts[o], i + 1);
    RunThree(s, go, go, go);
    more := RunMore(s, [go, go, go], go);
  }

  /** One abandoned launch is stopped and, if its provider had resumed, rolled back. */
  lemma AbandonedGoes(s: System, o: Owner, i: nat) returns (more: seq<Action>)
    requires InCharge(s, o) && s.attempts[o].pc == Renew(StopAbandoned(i))
    requires i < |s.attempts[o].abandoned| && NoneAmbiguous(s.attempts[o].abandoned)
    ensures var s' := Run(s, more);
            GoesOn(s, s', o) && s'.db == s.db
            && s'.attempts[o] == s.attempts[o].(pc := AbandonedPc(s.attempts[o], i + 1))
  {
    if NeedsRollback(s.attempts[o].abandoned[i].1) {
      more := AbandonedIsRolledBack(s, o, i);
    } else {
      AttemptIsWellFormed(s, o);
      more := CallGoes(s, o, StopAbandoned(i));
    }
  }

  lemma {:induction false} AllAbandonedGo(s: System, o: Owner, i: nat) returns (more: seq<Action>)
    requires InCharge(s, o) && i <= |s.attempts[o].abandoned| && s.attempts[o].abandoned != []
    requires NoneAmbiguous(s.attempts[o].abandoned) && s.attempts[o].pc == AbandonedPc(s.attempts[o], i)
    ensures var s' := Run(s, more);
            GoesOn(s, s', o) && s'.db == s.db
            && s'.attempts[o] == s.attempts[o].(pc := Renew(RollbackAbandonedGeneration))
    decreases |s.attempts[o].abandoned| - i
  {
    GoesOnItself(s, o);
    more := [];
    if i < |s.attempts[o].abandoned| {
      var first := AbandonedGoes(s, o, i);
      var s1 := Run(s, first);
      var rest := AllAbandonedGo(s1, o, i + 1);
      more := first + rest;
      RunThen(s, first, rest);
    }
  }

  lemma ForgetGoes(s: System, o: Owner)
    requires InCharge(s, o) && s.attempts[o].pc == ForgetAbandoned
    ensures var s' := Next(s, Go(o, 0));
            GoesOn(s, s', o) && s'.attempts[o] == s.attempts[o].(pc := ReconcilePc(s.attempts[o], 0))
  {
    Steps(s, o, Go(o, 0).choice);
  }

  lemma {:induction false} ReconcileGoes(s: System, o: Owner, i: nat) returns (more: seq<Action>)
    requires InCharge(s, o) && i <= |s.attempts[o].members| && s.attempts[o].pc == ReconcilePc(s.attempts[o], i)
    requires s.attempts[o].launched == []
    ensures var s' := Run(s, more);
            GoesOn(s, s', o) && s'.db == s.db && s'.attempts[o] == s.attempts[o].(pc := LaunchPc(s.attempts[o], 0))
    decreases |s.attempts[o].members| - i
  {
    GoesOnItself(s, o);
    more := [];
    if i < |s.attempts[o].members| {
      var first := CallGoes(s, o, Reconcile(i));
      var s1 := Run(s, first);
      var rest := ReconcileGoes(s1, o, i + 1);
      more := first + rest;
      RunThen(s, first, rest);
    }
  }

  lemma ForgottenGoes(s: System, o: Owner) returns (more: seq<Action>)
    requires InCharge(s, o) && s.attempts[o].pc == Renew(RollbackAbandonedGeneration)
    ensures var s' := Run(s, more);
            GoesOn(s, s', o) && s'.attempts[o] == s.attempts[o].(pc := ReconcilePc(s.attempts[o], 0))
  {
    AttemptIsWellFormed(s, o);
    more := CallGoes(s, o, RollbackAbandonedGeneration);
    var s1 := Run(s, more);
    ForgetGoes(s1, o);
    more := RunMore(s, more, Go(o, 0));
    GoesOnTransitive(s, s1, Run(s, more), o);
  }

  lemma LeftoversGo(s: System, o: Owner) returns (more: seq<Action>)
    requires InCharge(s, o) && NoneAmbiguous(s.attempts[o].abandoned) && s.attempts[o].abandoned != []
    requires s.attempts[o].pc == AbandonedPc(s.attempts[o], 0)
    ensures var s' := Run(s, more);
            GoesOn(s, s', o) && s'.attempts[o] == s.attempts[o].(pc := ReconcilePc(s.attempts[o], 0))
  {
    more := AllAbandonedGo(s, o, 0);
    var s1 := Run(s, more);
    var rest := ForgottenGoes(s1, o);
    RunThen(s, more, rest);
    more := more + rest;
    GoesOnTransitive(s, s1, Run(s, more), o);
  }

  /** From the rows that were found to the first launch. */
  lemma RecoveryGoes(s: System, o: Owner) returns (more: seq<Action>)
    requires InCharge(s, o) && NoneAmbiguous(s.attempts[o].abandoned)
    requires s.attempts[o].pc == AbandonedPc(s.attempts[o], 0) && s.attempts[o].launched == []
    ensures var s' := Run(s, more);
            GoesOn(s, s', o) && s'.attempts[o] == s.attempts[o].(pc := LaunchPc(s.attempts[o], 0))
  {
    GoesOnItself(s, o);
    more := [];
    if s.attempts[o].abandoned != [] { more := LeftoversGo(s, o); }
    var s1 := Run(s, more);
    var rest := ReconcileGoes(s1, o, 0);
    RunThen(s, more, rest);
    more := more + rest;
    GoesOnTransitive(s, s1, Run(s, more), o);
  }

  // ---------------------------------------------------------------- launching

  lemma RecordGoes(s: System, o: Owner, i: nat)
    requires InCharge(s, o) && s.attempts[o].pc == Record(i)
    ensures WellFormed(s.attempts[o]) && i < |s.attempts[o].members|
    ensures var s' := Next(s, Go(o, 0));
            var a := s.attempts[o];
            GoesOn(s, s', o)
            && s'.attempts[o] == a.(pc := if a.members[i].provider.Some? then SetResuming(i) else LaunchPc(a, i + 1))
  {
    Steps(s, o, Go(o, 0).choice);
  }

  lemma ResumingGoes(s: System, o: Owner, i: nat)
    requires InCharge(s, o) && s.attempts[o].pc == SetResuming(i)
    ensures WellFormed(s.attempts[o]) && i < |s.attempts[o].members|
    ensures var s' := Next(s, Go(o, 0));
            var a := s.attempts[o];
            GoesOn(s, s', o)
            && s'.attempts[o] == a.(pc := if AsksProvider(a.members[i]) then Renew(ProviderResume(i))
               else SetResumed(i))
  {
    Steps(s, o, Go(o, 0).choice);
    assert Owns(s.db, s.attempts[o]);
    assert AttemptOk(s.db, s.attempts[o], s.log);
  }

  lemma ResumedGoes(s: System, o: Owner, i: nat)
    requires InCharge(s, o) && s.attempts[o].pc == SetResumed(i)
    ensures WellFormed(s.attempts[o])
    ensures var s' := Next(s, Go(o, 0));
            var a := s.attempts[o]; GoesOn(s, s', o) && s'.attempts[o] == a.(pc := LaunchPc(a, i + 1))
  {
    Steps(s, o, Go(o, 0).choice);
    assert Owns(s.db, s.attempts[o]);
    assert AttemptOk(s.db, s.attempts[o], s.log);
  }

  /** One member: launched, recorded and, if it has a conversation, resumed. */
  lemma LaunchGoes(s: System, o: Owner, i: nat) returns (more: seq<Action>)
    requires InCharge(s, o) && s.attempts[o].pc == Renew(Launch(i))
    ensures var s' := Run(s, more);
            GoesOn(s, s', o) && s'.attempts[o].pc == LaunchPc(s.attempts[o], i + 1)
            && |s'.attempts[o].launched| == i + 1
  {
    var a := s.attempts[o];
    AttemptIsWellFormed(s, o);
    more := CallGoes(s, o, Launch(i));
    var s1 := Run(s, more);
    RecordGoes(s1, o, i);
    more := RunMore(s, more, Go(o, 0));
    var s2 := Run(s, more);
    GoesOnTransitive(s, s1, s2, o);
    if a.members[i].provider.Some? {
      var asked := ProviderGoes(s2, o, i);
      RunThen(s, more, asked);
      more := more + asked;
      GoesOnTransitive(s, s2, Run(s, more), o);
    }
  }

  lemma ProviderGoes(s: System, o: Owner, i: nat) returns (more: seq<Action>)
    requires InCharge(s, o) && s.attempts[o].pc == SetResuming(i)
    ensures var s' := Run(s, more);
            var a := s.attempts[o]; GoesOn(s, s', o) && s'.attempts[o] == a.(pc := LaunchPc(a, i + 1))
  {
    var a := s.attempts[o];
    ResumingGoes(s, o, i);
    more := [Go(o, 0)];
    RunOne(s, Go(o, 0));
    var s1 := Run(s, more);
    if AsksProvider(a.members[i]) {
      AttemptIsWellFormed(s1, o);
      var call := CallGoes(s1, o, ProviderResume(i));
      RunThen(s, more, call);
      more := more + call;
    }
    var s2 := Run(s, more);
    ResumedGoes(s2, o, i);
    more := RunMore(s, more, Go(o, 0));
  }

  lemma {:induction false} AllLaunch(s: System, o: Owner, i: nat) returns (more: seq<Action>)
    requires InCharge(s, o) && i <= |s.attempts[o].members| && s.attempts[o].pc == LaunchPc(s.attempts[o], i)
    requires |s.attempts[o].launched| == i
    ensures var s' := Run(s, more); GoesOn(s, s', o) && s'.attempts[o].pc == Install
    decreases |s.attempts[o].members| - i
  {
    GoesOnItself(s, o);
    more := [];
    if i < |s.attempts[o].members| {
      var first := LaunchGoes(s, o, i);
      var s1 := Run(s, first);
      var rest := AllLaunch(s1, o, i + 1);
      RunThen(s, first, rest);
      more := first + rest;
      GoesOnTransitive(s, s1, Run(s, more), o);
    }
  }

  // ---------------------------------------------------------------- delivering

  lemma InstallGoes(s: System, o: Owner) returns (more: seq<Action>)
    requires InCharge(s, o) && s.attempts[o].pc == Install
    ensures var s' := Run(s, more); GoesOn(s, s', o) && s'.attempts[o].pc == FetchPc(s.attempts[o], 0)
  {
    var a := s.attempts[o];
    InstalledGoes(s, o);
    var first := [Go(o, |a.members|)];
    RunOne(s, Go(o, |a.members|));
    var s1 := Run(s, first);
    AttemptIsWellFormed(s1, o);
    var call := CallGoes(s1, o, Reattach);
    RunThen(s, first, call);
    more := first + call;
    GoesOnTransitive(s, s1, Run(s, more), o);
  }

  lemma InstalledGoes(s: System, o: Owner)
    requires InCharge(s, o) && s.attempts[o].pc == Install
    ensures var s' := Next(s, Go(o, |s.attempts[o].members|));
            GoesOn(s, s', o) && s'.attempts[o] == s.attempts[o].(pc := Renew(Reattach))
  {
    var a := s.attempts[o];
    Steps(s, o, Go(o, |a.members|).choice);
    InstallLeavesRows(s.db, a, |a.launched|);
  }

  /** Delivery ids are unique, as the primary key of the store makes them. */
  ghost predicate IdsDistinct(queue: set<Delivery>) {
    forall d, e | d in queue && e in queue && d.id == e.id :: d == e
  }

  predicate Sorted(list: seq<Delivery>) {
    forall i, j | 0 <= i < j < |list| :: list[i] != list[j] && list[i].cursor <= list[j].cursor
  }

  lemma {:induction false} Insert(list: seq<Delivery>, d: Delivery) returns (more: seq<Delivery>)
    requires Sorted(list) && d !in list
    ensures Sorted(more) && forall e :: e in more <==> e == d || e in list
    decreases |list|
  {
    if list == [] || d.cursor <= list[0].cursor {
      more := [d] + list;
    } else {
      var first, rest := list[0], list[1..];
      assert list == [first] + rest;
      more := Insert(rest, d);
      SortedFirst(first, more);
      more := [first] + more;
    }
  }

  lemma SortedFirst(first: Delivery, rest: seq<Delivery>)
    requires Sorted(rest) && first !in rest && forall e | e in rest :: first.cursor <= e.cursor
    ensures Sorted([first] + rest)
  {
    assert forall i | 0 <= i < |rest| :: rest[i] in rest;
  }

  lemma {:induction false} Listing(wanted: set<Delivery>) returns (list: seq<Delivery>)
    ensures ListsPending(list, wanted)
    decreases |wanted|
  {
    if wanted == {} {
      list := [];
    } else {
      var d :| d in wanted;
      list := Listing(wanted - {d});
      list := Insert(list, d);
    }
  }

  // ---------------------------------------------------------------- one delivery

  lemma AcceptedGoes(s: System, o: Owner, i: nat, rest: seq<Delivery>)
    requires InCharge(s, o) && s.attempts[o].pc == Running(Deliver(i, rest))
    ensures var s' := Next(s, Go(o, 0));
            GoesOn(s, s', o) && s'.db == s.db && s'.attempts[o] == s.attempts[o].(pc := Acknowledging(i, rest))
  {
    Steps(s, o, Go(o, 0).choice);
  }

  lemma AcknowledgedGoes(s: System, o: Owner, i: nat, rest: seq<Delivery>)
    requires InCharge(s, o) && s.attempts[o].pc == Acknowledging(i, rest)
    ensures WellFormed(s.attempts[o]) && i < |s.attempts[o].members| && rest != []
    ensures var m := s.attempts[o].members[i].id;
            (m, rest[0].id) !in s.db.acks ==>
              var s' := Next(s, Go(o, 0));
              && GoesOn(s, s', o) && s'.attempts[o] == s.attempts[o].(pc := Checking(Deliver(i, rest)))
              && s'.db.acks == s.db.acks + {(m, rest[0].id)}
  {
    Steps(s, o, Go(o, 0).choice);
  }

  /** Nothing in the list has been acknowledged yet, and no two of its ids are the same. */
  predicate Unacknowledged(db: Db, m: MemberId, rest: seq<Delivery>) {
    && (forall i | 0 <= i < |rest| :: (m, rest[i].id) !in db.acks)
    && (forall i, j | 0 <= i < j < |rest| :: rest[i].id != rest[j].id)
  }

  predicate AllAcknowledged(db: Db, m: MemberId, list: seq<Delivery>) {
    forall i | 0 <= i < |list| :: (m, list[i].id) in db.acks
  }

  lemma DeliveryIsAccepted(s: System, o: Owner, i: nat, rest: seq<Delivery>)
    requires InCharge(s, o) && s.attempts[o].pc == Renew(Deliver(i, rest))
    ensures var s' := Next(Next(s, Go(o, 0)), Go(o, 0));
            GoesOn(s, s', o) && s'.db == s.db && s'.attempts[o] == s.attempts[o].(pc := Acknowledging(i, rest))
  {
    RenewGoes(s, o, Deliver(i, rest), 0);
    var s1 := Next(s, Go(o, 0));
    AcceptedGoes(s1, o, i, rest);
    GoesOnTransitive(s, s1, Next(s1, Go(o, 0)), o);
  }

  lemma DeliveryIsAcknowledged(s: System, o: Owner, i: nat, rest: seq<Delivery>)
    requires InCharge(s, o) && s.attempts[o].pc == Acknowledging(i, rest) && i < |s.attempts[o].members| && rest != []
    requires (s.attempts[o].members[i].id, rest[0].id) !in s.db.acks
    ensures var s' := Next(Next(s, Go(o, 0)), Go(o, 0));
            var m := s.attempts[o].members[i].id;
            && GoesOn(s, s', o) && s'.attempts[o] == s.attempts[o].(pc := DeliverPc(s.attempts[o], i, rest[1..]))
            && s'.db.acks == s.db.acks + {(m, rest[0].id)}
  {
    AcknowledgedGoes(s, o, i, rest);
    var s1 := Next(s, Go(o, 0));
    AttemptIsWellFormed(s1, o);
    CheckingGoes(s1, o, Deliver(i, rest), 0);
    GoesOnTransitive(s, s1, Next(s1, Go(o, 0)), o);
  }

  lemma DeliverGoes(s: System, o: Owner, i: nat, rest: seq<Delivery>) returns (more: seq<Action>)
    requires InCharge(s, o) && s.attempts[o].pc == Renew(Deliver(i, rest)) && i < |s.attempts[o].members|
    requires rest != [] && Unacknowledged(s.db, s.attempts[o].members[i].id, rest)
    ensures var s' := Run(s, more);
            var m := s.attempts[o].members[i].id;
            && GoesOn(s, s', o) && s'.attempts[o] == s.attempts[o].(pc := DeliverPc(s.attempts[o], i, rest[1..]))
            && s'.db.acks == s.db.acks + {(m, rest[0].id)}
  {
    var go := Go(o, 0);
    DeliveryIsAccepted(s, o, i, rest);
    var s1 := Next(Next(s, go), go);
    DeliveryIsAcknowledged(s1, o, i, rest);
    GoesOnTransitive(s, s1, Next(Next(s1, go), go), o);
    RunThree(s, go, go, go);
    more := RunMore(s, [go, go, go], go);
  }

  lemma {:induction false} AllDeliver(s: System, o: Owner, i: nat, rest: seq<Delivery>) returns (more: seq<Action>)
    requires InCharge(s, o) && i < |s.attempts[o].members| && s.attempts[o].pc == DeliverPc(s.attempts[o], i, rest)
    requires Unacknowledged(s.db, s.attempts[o].members[i].id, rest)
    ensures var s' := Run(s, more);
            var m := s.attempts[o].members[i].id;
            && GoesOn(s, s', o) && s'.attempts[o] == s.attempts[o].(pc := FetchPc(s.attempts[o], i + 1))
            && AllAcknowledged(s'.db, m, rest) && (forall a | a in s'.db.acks :: a in s.db.acks || a.0 == m)
    decreases |rest|
  {
    GoesOnItself(s, o);
    more := [];
    if rest != [] {
      var m := s.attempts[o].members[i].id;
      var first := DeliverGoes(s, o, i, rest);
      var s1 := Run(s, first);
      assert Unacknowledged(s1.db, m, rest[1..]);
      var later := AllDeliver(s1, o, i, rest[1..]);
      RunThen(s, first, later);
      more := first + later;
      var s' := Run(s, more);
      GoesOnTransitive(s, s1, s', o);
      OneMoreAcknowledged(s1.db, s'.db, m, rest);
    }
  }

  lemma OneMoreAcknowledged(db: Db, db': Db, m: MemberId, rest: seq<Delivery>)
    requires rest != [] && (m, rest[0].id) in db.acks && db.acks <= db'.acks && AllAcknowledged(db', m, rest[1..])
    ensures AllAcknowledged(db', m, rest)
  {
    forall i | 0 <= i < |rest| ensures (m, rest[i].id) in db'.acks {
      if i > 0 { assert rest[i] == rest[1..][i - 1]; }
    }
  }

  // ---------------------------------------------------------------- all members, and the commit

  lemma FetchedGoes(s: System, o: Owner, i: nat, pending: seq<Delivery>)
    requires InCharge(s, o) && s.attempts[o].pc == Fetch(i) && i < |s.attempts[o].members|
    requires var m := s.attempts[o].members[i]; ListsPending(pending, PendingAfter(s.db, m.cursor, m.id))
    ensures var s' := Next(s, GoWith(o, [], pending));
            GoesOn(s, s', o) && s'.db == s.db
            && s'.attempts[o] == s.attempts[o].(pc := DeliverPc(s.attempts[o], i, pending))
  {
    Steps(s, o, GoWith(o, [], pending).choice);
  }

  /** Every delivery behind this member's cursor is acknowledged by it. */
  predicate Served(db: Db, m: Member) {
    forall d | d in db.queue && d.cursor > m.cursor :: (m.id, d.id) in db.acks
  }

  predicate ServedUpTo(db: Db, members: seq<Member>, n: nat) {
    forall i | 0 <= i < n && i < |members| :: Served(db, members[i])
  }

  lemma PendingIsUnacknowledged(db: Db, m: Member, list: seq<Delivery>)
    requires IdsDistinct(db.queue) && ListsPending(list, PendingAfter(db, m.cursor, m.id))
    ensures Unacknowledged(db, m.id, list)
  {
    forall i | 0 <= i < |list| ensures (m.id, list[i].id) !in db.acks { assert list[i] in list; }
    forall i, j | 0 <= i < j < |list| ensures list[i].id != list[j].id {
      assert list[i] in list && list[j] in list;
    }
  }

  lemma PendingIsServed(db: Db, db': Db, m: Member, list: seq<Delivery>)
    requires ListsPending(list, PendingAfter(db, m.cursor, m.id)) && AllAcknowledged(db', m.id, list)
    requires db'.queue == db.queue && db.acks <= db'.acks
    ensures Served(db', m)
  {
    forall d | d in db'.queue && d.cursor > m.cursor ensures (m.id, d.id) in db'.acks {
      if (m.id, d.id) !in db.acks {
        assert d in PendingAfter(db, m.cursor, m.id) && d in list;
        var i :| 0 <= i < |list| && list[i] == d;
      }
    }
  }

  /** Member `i` is given everything that is pending for it. */
  lemma MemberGoes(s: System, o: Owner, i: nat) returns (more: seq<Action>)
    requires InCharge(s, o) && i < |s.attempts[o].members| && s.attempts[o].pc == Fetch(i) && IdsDistinct(s.db.queue)
    ensures var s' := Run(s, more);
            && GoesOn(s, s', o) && s'.attempts[o] == s.attempts[o].(pc := FetchPc(s.attempts[o], i + 1))
            && Served(s'.db, s.attempts[o].members[i])
  {
    var m := s.attempts[o].members[i];
    var list := Listing(PendingAfter(s.db, m.cursor, m.id));
    var first := GoWith(o, [], list);
    FetchedGoes(s, o, i, list);
    RunOne(s, first);
    var s1 := Next(s, first);
    PendingIsUnacknowledged(s.db, m, list);
    var rest := AllDeliver(s1, o, i, list);
    RunThen(s, [first], rest);
    more := [first] + rest;
    var s' := Run(s, more);
    GoesOnTransitive(s, s1, s', o);
    PendingIsServed(s.db, s'.db, m, list);
  }

  lemma {:induction false} AllServed(s: System, o: Owner, i: nat) returns (more: seq<Action>)
    requires InCharge(s, o) && i <= |s.attempts[o].members| && s.attempts[o].pc == FetchPc(s.attempts[o], i)
    requires IdsDistinct(s.db.queue) && ServedUpTo(s.db, s.attempts[o].members, i)
    ensures var s' := Run(s, more);
            && GoesOn(s, s', o) && s'.attempts[o].pc == Commit
            && ServedUpTo(s'.db, s.attempts[o].members, |s.attempts[o].members|)
    decreases |s.attempts[o].members| - i
  {
    GoesOnItself(s, o);
    more := [];
    var members := s.attempts[o].members;
    if i < |members| {
      var first := MemberGoes(s, o, i);
      var s1 := Run(s, first);
      ServedNext(s.db, s1.db, members, i);
      var rest := AllServed(s1, o, i + 1);
      RunThen(s, first, rest);
      more := first + rest;
      GoesOnTransitive(s, s1, Run(s, more), o);
    }
  }

  lemma ServedNext(db: Db, db': Db, members: seq<Member>, i: nat)
    requires ServedUpTo(db, members, i) && i < |members| && Served(db', members[i])
    requires db'.queue == db.queue && db.acks <= db'.acks
    ensures ServedUpTo(db', members, i + 1)
  {
    forall j | 0 <= j < i ensures Served(db', members[j]) { assert Served(db, members[j]); }
  }

  /** A committed resume: the channel is active, the call has its result, and nobody has anything pending. */
  ghost predicate Committed(s: System, o: Owner, key: Key, members: seq<Member>) {
    && s.db.state == Active && o in s.attempts && s.attempts[o].pc.Finished? && |s.attempts[o].pc.result| == |members|
    && (forall i | 0 <= i < |members| :: s.attempts[o].pc.result[i].member == members[i].id)
    && key in s.db.results && s.db.results[key] == s.attempts[o].pc.result
    && s.log != [] && s.log[|s.log| - 1].Committed? && s.log[|s.log| - 1].members == members
    && s.log[|s.log| - 1].result == s.attempts[o].pc.result && ServedUpTo(s.db, members, |members|)
  }

  lemma CommitGoes(s: System, o: Owner)
    requires InCharge(s, o) && s.attempts[o].pc == Commit
    requires ServedUpTo(s.db, s.attempts[o].members, |s.attempts[o].members|)
    ensures Committed(Next(s, Go(o, 0)), o, s.attempts[o].key, s.attempts[o].members)
    ensures |Next(s, Go(o, 0)).log| > |s.log|
  {
    Steps(s, o, Go(o, 0).choice);
  }

  // ---------------------------------------------------------------- the claim

  predicate Unambiguous(db: Db) {
    forall k | k in db.launches :: db.launches[k].phase != ProviderResuming
  }

  lemma {:induction false} Enumerate(ids: set<MemberId>) returns (list: seq<MemberId>)
    ensures (forall m :: m in list <==> m in ids) && forall i, j | 0 <= i < j < |list| :: list[i] != list[j]
    decreases |ids|
  {
    if ids == {} {
      list := [];
    } else {
      var m :| m in ids;
      list := Enumerate(ids - {m});
      list := list + [m];
    }
  }

  lemma RowsOf(launches: Launches, generation: nat) returns (rows: seq<(MemberId, Row)>)
    ensures Lists(rows, launches, generation)
  {
    var ids := set k | k in launches && k.1 == generation :: k.0;
    var list := Enumerate(ids);
    forall i | 0 <= i < |list| ensures (list[i], generation) in launches {
      assert list[i] in ids;
    }
    rows := seq(|list|, i requires 0 <= i < |list| => (list[i], launches[(list[i], generation)]));
    forall m | (m, generation) in launches ensures exists i :: 0 <= i < |rows| && rows[i].0 == m {
      assert (m, generation).0 in ids && m in list;
      var i :| 0 <= i < |list| && list[i] == m;
      assert rows[i].0 == m;
    }
  }

  lemma BeginGoes(s: System, o: Owner, key: Key, generation: nat, members: seq<Member>)
    requires Safe(s) && MayBegin(s, o) && Distinct(members)
    ensures var s' := Next(s, Begin(o, key, generation, members));
            && Safe(s') && s'.db == s.db && o in s'.attempts
            && s'.attempts[o] == NewAttempt(o, key, generation, members)
  {
    NextSafe(s, Begin(o, key, generation, members));
  }

  lemma ClaimGoes(s: System, o: Owner)
    requires Safe(s) && o in s.attempts && s.attempts[o].pc == Claim
    requires Claimable(s.db, s.attempts[o].key, s.attempts[o].generation)
    ensures var s', a := Next(s, Go(o, 0)), s.attempts[o];
            && Safe(s') && o in s'.attempts && s'.attempts[o] == a.(pc := FetchToken)
            && s'.db == Claimed(s.db, a.key, a.generation, a.owner)
  {
    Steps(s, o, Go(o, 0).choice);
  }

  lemma TokenGoes(s: System, o: Owner)
    requires Safe(s) && o in s.attempts && s.attempts[o].pc == FetchToken
    requires Current(s.db, Token(s.attempts[o].owner, s.attempts[o].key, s.db.epoch))
    ensures var s', a := Next(s, Go(o, 0)), s.attempts[o];
            && InCharge(s', o) && s'.db == s.db && s'.attempts[o].pc == ReadAbandoned && s'.attempts[o].key == a.key
            && s'.attempts[o].members == a.members && s'.attempts[o].launched == a.launched
            && s'.attempts[o].generation == a.generation
  {
    Steps(s, o, Go(o, 0).choice);
  }

  lemma ReadGoes(s: System, o: Owner, rows: seq<(MemberId, Row)>)
    requires InCharge(s, o) && s.attempts[o].pc == ReadAbandoned && Unambiguous(s.db)
    requires Lists(rows, s.db.launches, s.attempts[o].generation)
    ensures var s', a := Next(s, GoWith(o, rows, [])), s.attempts[o].(abandoned := rows);
            && InCharge(s', o) && s'.db == s.db && s'.attempts[o] == a.(pc := AbandonedPc(a, 0)) && NoneAmbiguous(rows)
  {
    Steps(s, o, GoWith(o, rows, []).choice);
    assert NoneAmbiguous(rows);
    if rows == [] { ReconcilePcGoesOn(s.attempts[o].(abandoned := rows)); }
  }

  lemma ReconcilePcGoesOn(a: Attempt)
    ensures !ReconcilePc(a, 0).Failed?
  {
  }

  /** From a claimable store to a call that holds the lease and has read what was left behind. */
  lemma ClaimedGoes(s: System, o: Owner, key: Key, generation: nat, members: seq<Member>) returns (more: seq<Action>)
    requires Safe(s) && MayBegin(s, o) && Distinct(members) && Unambiguous(s.db)
    requires Claimable(s.db, key, generation)
    ensures var s' := Run(s, more);
            && InCharge(s', o) && s'.db.queue == s.db.queue && s'.attempts[o].key == key
            && s'.attempts[o].members == members && s'.attempts[o].launched == []
            && NoneAmbiguous(s'.attempts[o].abandoned)
            && s'.attempts[o].pc == AbandonedPc(s'.attempts[o], 0)
  {
    var begin, go := Begin(o, key, generation, members), Go(o, 0);
    BeginGoes(s, o, key, generation, members);
    var s1 := Next(s, begin);
    ClaimGoes(s1, o);
    var s2 := Next(s1, go);
    TokenGoes(s2, o);
    var s3 := Next(s2, go);
    RunThree(s, begin, go, go);
    var rows := RowsOf(s3.db.launches, generation);
    ReadGoes(s3, o, rows);
    more := RunMore(s, [begin, go, go], GoWith(o, rows, []));
    AbandonedPcStays(s3.attempts[o].(abandoned := rows), Run(s, more).attempts[o], 0);
  }

  // ---------------------------------------------------------------- theorems

  lemma {:induction false} LogNeverShrinks(s: System, more: seq<Action>)
    ensures |Run(s, more).log| >= |s.log|
  {
    if more != [] { LogNeverShrinks(s, more[..|more| - 1]); }
  }

  /** A call that has read what was left behind gets through. */
  lemma HolderGetsThrough(s: System, o: Owner) returns (more: seq<Action>)
    requires InCharge(s, o) && NoneAmbiguous(s.attempts[o].abandoned) && s.attempts[o].launched == []
    requires s.attempts[o].pc == AbandonedPc(s.attempts[o], 0) && IdsDistinct(s.db.queue)
    ensures Committed(Run(s, more), o, s.attempts[o].key, s.attempts[o].members) && |Run(s, more).log| > |s.log|
  {
    more := RecoveryGoes(s, o);
    var s1 := Run(s, more);
    var launch := AllLaunch(s1, o, 0);
    RunThen(s, more, launch);
    more := more + launch;
    var s2 := Run(s, more);
    var install := InstallGoes(s2, o);
    RunThen(s, more, install);
    more := more + install;
    var s3 := Run(s, more);
    var serve := AllServed(s3, o, 0);
    RunThen(s, more, serve);
    more := more + serve;
    CommitGoes(Run(s, more), o);
    LogNeverShrinks(s, more);
    more := RunMore(s, more, Go(o, 0));
  }

  /**
   A resume gets through. In every run: whenever the channel is suspended, or a resume under this key and
   generation has lost its lease, and no row is ambiguous, one more call can recover what was left behind,
   resume every member, deliver all that is pending for each, and commit.
   */
  lemma ResumeGetsThrough(start: System, before: seq<Action>, o: Owner, key: Key, generation: nat,
      members: seq<Member>) returns (more: seq<Action>)
    requires Start(start)
    requires var s := Run(start, before);
             && MayBegin(s, o) && Distinct(members) && IdsDistinct(s.db.queue)
             && (s.db.state == Suspended
                 || (s.db.state == Resuming && s.db.key == Some(key) && s.db.generation == generation && !s.db.live))
             && forall k | k in s.db.launches :: s.db.launches[k].phase != ProviderResuming
    ensures Committed(Run(start, before + more), o, key, members)
    ensures |Run(start, before + more).log| > |Run(start, before).log|
  {
    var s := Run(start, before);
    RunSafe(start, before);
    var claim := ClaimedGoes(s, o, key, generation, members);
    var rest := HolderGetsThrough(Run(s, claim), o);
    LogNeverShrinks(s, claim);
    RunThen(s, claim, rest);
    more := claim + rest;
    RunThen(start, before, more);
  }

  /** A commit that comes after `before`. */
  ghost predicate CommitsLater(start: System, before: seq<Action>, more: seq<Action>) {
    var log := Run(start, before + more).log;
    exists k :: |Run(start, before).log| <= k < |log| && log[k].Committed?
  }

  /**
   Recoverable, exactly. Once a resume has lost its lease, it can still be brought to a commit if and only
   if no row says that a provider may or may not have resumed.
   */
  lemma RecoverableIff(start: System, before: seq<Action>, o: Owner, members: seq<Member>)
    requires Start(start)
    requires var s := Run(start, before);
             && s.db.state == Resuming && s.db.key.Some? && !s.db.live
             && MayBegin(s, o) && Distinct(members) && IdsDistinct(s.db.queue)
    ensures var launches := Run(start, before).db.launches;
            (exists more :: CommitsLater(start, before, more))
            <==> forall k | k in launches :: launches[k].phase != ProviderResuming
  {
    var s := Run(start, before);
    if Unambiguous(s.db) {
      var more := CommitIsReached(start, before, o, members);
    } else {
      RunSafe(start, before);
      LostLease(s);
      forall more | CommitsLater(start, before, more) ensures false { StuckNeverCommits(start, before, more); }
    }
  }

  lemma CommitIsReached(start: System, before: seq<Action>, o: Owner, members: seq<Member>)
      returns (more: seq<Action>)
    requires Start(start) && Unambiguous(Run(start, before).db)
    requires var s := Run(start, before);
             && s.db.state == Resuming && s.db.key.Some? && !s.db.live
             && MayBegin(s, o) && Distinct(members) && IdsDistinct(s.db.queue)
    ensures CommitsLater(start, before, more)
  {
    var s := Run(start, before);
    more := ResumeGetsThrough(start, before, o, s.db.key.value, s.db.generation, members);
    var log := Run(start, before + more).log;
    assert log[|log| - 1].Committed?;
  }

  lemma StuckNeverCommits(start: System, before: seq<Action>, more: seq<Action>)
    requires Start(start) && Stuck(Run(start, before))
    ensures !CommitsLater(start, before, more)
  {
    StuckForever(start, before, more);
  }
}
