/**
 Runs of the resume saga that show what its guarantees do not cover, and what blocks it for good.
 */
module ResumeRuns {
  import opened Options
  import opened BlueprintStore
  import opened ResumeSaga
  import opened ResumeSafety
  import opened ResumeSteps
  import opened ResumeTheorems
  import opened ResumeHistory

  // ---------------------------------------------------------------- an ambiguous row blocks for good

  /** A row says that a provider may or may not have resumed, and whoever wrote it has lost the lease. */
  ghost predicate Stuck(s: System) {
    && s.db.state == Resuming && (exists k :: k in s.db.launches && s.db.launches[k].phase == ProviderResuming)
    && forall o, i | o in s.attempts && 0 <= i < |s.attempts[o].members| && Armed(s.attempts[o], i) ::
         s.attempts[o].token.Some? && !Current(s.db, s.attempts[o].token.value)
  }

  /** The points at which an attempt would change a row, call the provider, commit or release. */
  predicate Decisive(pc: Pc) {
    pc.Record? || pc.SetResuming? || pc.SetResumed? || pc.ForgetAbandoned? || pc.Install? || pc.Commit? || pc.Release?
        || (pc.Renew? && pc.op.ProviderResume?)
  }

  lemma StuckIsIndecisive(s: System, o: Owner)
    requires Safe(s) && Stuck(s) && o in s.attempts && s.attempts[o].token.Some?
    requires Current(s.db, s.attempts[o].token.value)
    ensures !Decisive(s.attempts[o].pc)
  {
    var a := s.attempts[o];
    if Decisive(a.pc) {
      assert Owns(s.db, a);
      if a.pc.SetResumed? || a.pc.Renew? {
        assert Armed(a, if a.pc.SetResumed? then a.pc.i else a.pc.op.i);
      } else {
        NothingToDecide(s.db, a, s.log);
      }
      assert false;
    }
  }

  lemma NothingToDecide(db: Db, a: Attempt, log: seq<Event>)
    requires AttemptOk(db, a, log) && Owns(db, a) && DbOk(db) && StandingOk(db, log)
    requires a.pc.Record? || a.pc.SetResuming? || a.pc.ForgetAbandoned? || a.pc.Install? || a.pc.Commit?
               || a.pc.Release?
    ensures forall k | k in db.launches :: db.launches[k].phase != ProviderResuming
  {
    match a.pc
    case Record(i) => RowsSettled(a, i);
    case SetResuming(i) => RowsWithSettled(a, i, Launched);
    case ForgetAbandoned => RecoveredSettles(db, a, log);
    case Install => RowsSettled(a, |a.members|);
    case Commit => RowsSettled(a, |a.members|);
    case Release => TeardownSettles(db, a, log);
  }

  /** What an indecisive step can do: acknowledge, let the lease run out, take over. */
  predicate Harmless(e: Event) {
    !e.ResumeCalled? && !e.Committed? && !e.Freed?
  }

  lemma IndecisiveStep(db: Db, a: Attempt, ch: Choice)
    requires WellFormed(a) && db.state == Resuming
    requires !Decisive(a.pc) || (a.token.Some? && !Current(db, a.token.value))
    ensures var e := Step(db, a, ch);
            && e.db.state == Resuming && e.db.launches == db.launches && e.attempt.members == a.members
            && |e.events| <= 1 && (e.events != [] ==> Harmless(e.events[0]))
            && (forall i | 0 <= i < |a.members| && Armed(e.attempt, i) :: Armed(a, i) && e.attempt.token == a.token)
  {
    if a.pc.Renew? {
      RenewIsIndecisive(db, a, ch);
    } else if a.pc.Running? {
      RunningIsIndecisive(db, a, ch);
    } else if a.pc.Checking? {
      CheckingIsIndecisive(db, a, ch);
    } else if Decisive(a.pc) {
      StaleIsIndecisive(db, a, ch);
    } else if a.pc.Claim? || a.pc.FetchToken? || a.pc.ReadAbandoned? || a.pc.ReadDurable? {
      ReadsAreIndecisive(db, a, ch);
    } else {
      DeliveryIsIndecisive(db, a, ch);
    }
  }

  lemma RenewIsIndecisive(db: Db, a: Attempt, ch: Choice)
    requires WellFormed(a) && a.pc.Renew? && (!a.pc.op.ProviderResume? || !Current(db, a.token.value))
    ensures var e := RenewStep(db, a, a.pc.op, ch);
            && e.db == db && e.attempt.members == a.members && e.events == []
            && (forall i | 0 <= i < |a.members| && Armed(e.attempt, i) :: Armed(a, i) && e.attempt.token == a.token)
  {
    FailWellFormed(a, a.pc.op);
  }

  lemma RunningIsIndecisive(db: Db, a: Attempt, ch: Choice)
    requires WellFormed(a) && a.pc.Running?
    ensures var e := RunningStep(db, a, a.pc.op, ch);
            && e.db == db && e.attempt.members == a.members && |e.events| <= 1
               && (e.events != [] ==> Harmless(e.events[0]))
            && (forall i | 0 <= i < |a.members| && Armed(e.attempt, i) :: Armed(a, i) && e.attempt.token == a.token)
  {
    FailWellFormed(a, a.pc.op);
  }

  lemma CheckingIsIndecisive(db: Db, a: Attempt, ch: Choice)
    requires WellFormed(a) && a.pc.Checking?
    ensures var e := CheckingStep(db, a, a.pc.op, ch);
            && e.db == db && e.attempt.members == a.members && |e.events| <= 1
               && (e.events != [] ==> Harmless(e.events[0]))
            && (forall i | 0 <= i < |a.members| && Armed(e.attempt, i) :: Armed(a, i) && e.attempt.token == a.token)
  {
    if ch.flagged || !Current(db, a.token.value) {
      FailWellFormed(a, a.pc.op);
    } else {
      SucceedIsIndecisive(a, a.pc.op);
    }
  }

  lemma SucceedIsIndecisive(a: Attempt, op: Op)
    requires WellFormed(a) && a.pc == Checking(op)
    ensures var b := Succeed(a, op);
            b.members == a.members && b.token == a.token && forall i | 0 <= i < |a.members|
                && Armed(b, i) :: Armed(a, i)
    ensures |Achieved(a, op)| <= 1 && (Achieved(a, op) != [] ==> Harmless(Achieved(a, op)[0]))
  {
  }

  lemma StaleIsIndecisive(db: Db, a: Attempt, ch: Choice)
    requires WellFormed(a) && db.state == Resuming && !a.pc.Renew? && Decisive(a.pc) && !Current(db, a.token.value)
    ensures var e := Step(db, a, ch);
            && e.db.state == Resuming && e.db.launches == db.launches && e.attempt.members == a.members
               && e.events == []
            && (forall i | 0 <= i < |a.members| && Armed(e.attempt, i) :: Armed(a, i) && e.attempt.token == a.token)
  {
    if a.pc.Install? { InstallLeavesRows(db, a, |a.launched|); }
  }

  lemma ReadsAreIndecisive(db: Db, a: Attempt, ch: Choice)
    requires WellFormed(a) && db.state == Resuming
    requires a.pc.Claim? || a.pc.FetchToken? || a.pc.ReadAbandoned? || a.pc.ReadDurable?
    ensures var e := Step(db, a, ch);
            && e.db.state == Resuming && e.db.launches == db.launches && e.attempt.members == a.members
               && e.events == []
            && (forall i | 0 <= i < |a.members| :: !Armed(e.attempt, i))
  {
  }

  lemma DeliveryIsIndecisive(db: Db, a: Attempt, ch: Choice)
    requires WellFormed(a) && db.state == Resuming
    requires a.pc.Fetch? || a.pc.Acknowledging? || a.pc.Finished? || a.pc.Failed? || a.pc.Crashed?
    ensures var e := Step(db, a, ch);
            && e.db.state == Resuming && e.db.launches == db.launches && e.attempt.members == a.members
            && |e.events| <= 1 && (e.events != [] ==> Harmless(e.events[0]))
            && (forall i | 0 <= i < |a.members| :: !Armed(e.attempt, i))
  {
  }

  lemma StuckStays(s: System, action: Action)
    requires Safe(s) && Known(s) && Stuck(s)
    ensures var s' := Next(s, action);
            && Stuck(s') && s'.db.launches == s.db.launches
            && |s'.log| <= |s.log| + 1 && s'.log[..|s.log|] == s.log
               && (|s'.log| > |s.log| ==> Harmless(s'.log[|s.log|]))
  {
    if action.Advance? && action.owner in s.attempts && WellFormed(s.attempts[action.owner]) {
      StuckStep(s, action.owner, action.choice);
    }
  }

  /** From log `before` on, nothing is said that could resume, commit or release. */
  ghost predicate OnlyHarmless(before: seq<Event>, after: seq<Event>) {
    |before| <= |after| && after[..|before|] == before && forall k | |before| <= k < |after| :: Harmless(after[k])
  }

  lemma OnlyHarmlessNext(before: seq<Event>, middle: seq<Event>, after: seq<Event>)
    requires OnlyHarmless(before, middle)
    requires |middle| <= |after| <= |middle| + 1 && after[..|middle|] == middle
    requires |after| > |middle| ==> Harmless(after[|middle|])
    ensures OnlyHarmless(before, after)
  {
    assert after[..|before|] == middle[..|before|];
    forall k | |before| <= k < |after| ensures Harmless(after[k]) {
      if k < |middle| { assert after[k] == middle[k]; }
    }
  }

  ghost predicate StillStuck(s: System, s': System) {
    Stuck(s') && s'.db.launches == s.db.launches && OnlyHarmless(s.log, s'.log)
  }

  lemma StuckGoesOn(s0: System, s: System, action: Action)
    requires Safe(s) && Known(s) && StillStuck(s0, s)
    ensures StillStuck(s0, Next(s, action))
  {
    var s' := Next(s, action);
    StuckStays(s, action);
    OnlyHarmlessNext(s0.log, s.log, s'.log);
  }

  /**
   Recovery is blocked for good: once a `provider_resuming` row has lost its writer's lease, however
   the run goes on, nobody calls the provider, commits or releases the claim, and no row changes.
   */
  lemma {:induction false} StuckForever(start: System, before: seq<Action>, more: seq<Action>)
    requires Start(start) && Stuck(Run(start, before))
    ensures StillStuck(Run(start, before), Run(start, before + more))
    decreases |more|
  {
    if more == [] {
      assert before + more == before;
    } else {
      var init, last := more[..|more| - 1], more[|more| - 1];
      StuckForever(start, before, init);
      RunKnown(start, before + init);
      RunFurther(start, before, more);
      var s0, s := Run(start, before), Run(start, before + init);
      StuckGoesOn(s0, s, last);
    }
  }

  lemma StuckStep(s: System, o: Owner, ch: Choice)
    requires Safe(s) && Known(s) && Stuck(s) && o in s.attempts && WellFormed(s.attempts[o])
    ensures var s' := Next(s, Advance(o, ch));
            && Stuck(s') && s'.db.launches == s.db.launches
            && |s'.log| <= |s.log| + 1 && s'.log[..|s.log|] == s.log
               && (|s'.log| > |s.log| ==> Harmless(s'.log[|s.log|]))
  {
    var a := s.attempts[o];
    if a.token.Some? && Current(s.db, a.token.value) { StuckIsIndecisive(s, o); }
    IndecisiveStep(s.db, a, ch);
    ArmedStayStale(s, o, ch);
  }

  /** Whoever may be inside `provider.resume` was stale before this step and stays so. */
  lemma ArmedStayStale(s: System, o: Owner, ch: Choice)
    requires Safe(s) && Known(s) && Stuck(s) && o in s.attempts && WellFormed(s.attempts[o])
    requires var a, b := s.attempts[o], Step(s.db, s.attempts[o], ch).attempt;
             forall i | 0 <= i < |b.members| && Armed(b, i) :: i < |a.members| && Armed(a, i) && b.token == a.token
    ensures var s' := Next(s, Advance(o, ch));
            forall p, i | p in s'.attempts && 0 <= i < |s'.attempts[p].members| && Armed(s'.attempts[p], i) ::
              s'.attempts[p].token.Some? && !Current(s'.db, s'.attempts[p].token.value)
  {
    var s' := Next(s, Advance(o, ch));
    forall p, i | p in s'.attempts && 0 <= i < |s'.attempts[p].members| && Armed(s'.attempts[p], i)
      ensures s'.attempts[p].token.Some? && !Current(s'.db, s'.attempts[p].token.value)
    {
      assert Armed(s.attempts[p], i);
      StaleStays(s, Advance(o, ch), s.attempts[p].token.value);
    }
  }

  // ---------------------------------------------------------------- building runs

  /** Runs in which every call of `resume` reads the same blueprint. */
  predicate UsesOnly(actions: seq<Action>, members: seq<Member>) {
    forall i | 0 <= i < |actions| && actions[i].Begin? :: actions[i].members == members
  }

  /** And in which nothing is queued for anyone. */
  predicate CleanActions(actions: seq<Action>, members: seq<Member>) {
    UsesOnly(actions, members) && forall i | 0 <= i < |actions| :: !actions[i].Enqueue?
  }

  lemma Extend(s: System, actions: seq<Action>, action: Action, members: seq<Member>) returns (longer: seq<Action>)
    requires CleanActions(actions, members) && (action.Begin? ==> action.members == members) && !action.Enqueue?
    ensures CleanActions(longer, members) && Run(s, longer) == Next(Run(s, actions), action)
  {
    longer := actions + [action];
    assert longer[..|actions|] == actions;
  }

  const COORDINATOR: Owner := "coordinator"
  const KEY: Key := "key"

  /** Everything goes well: calls return, the heartbeat never fires, no lease runs out. */
  function Well(r: Runtime): Choice {
    Choice(Returns, r, true, false, [], [], 3)
  }

  function CleanAttempt(members: seq<Member>, generation: nat, t: Token, launched: seq<Runtime>, pc: Pc): Attempt {
    Attempt(COORDINATOR, KEY, generation, members, Some(t), [], None, launched, map[], true, pc)
  }

  /** The one coordinator of `s` is at `pc` and nothing has gone wrong. */
  predicate CleanAt(s: System, members: seq<Member>, generation: nat, t: Token, launched: seq<Runtime>, pc: Pc) {
    && COORDINATOR in s.attempts && s.attempts[COORDINATOR] == CleanAttempt(members, generation, t, launched, pc)
    && Current(s.db, t) && t.owner == COORDINATOR && t.key == KEY && Distinct(members)
  }

  /** Only launches and provider calls: nothing rolled back, nothing committed. */
  predicate CleanLog(log: seq<Event>) {
    forall i | 0 <= i < |log| :: log[i].LaunchReturned? || log[i].ResumeCalled?
  }

  ghost predicate Calls(log: seq<Event>, t: Token, members: seq<Member>, n: nat) {
    forall i | 0 <= i < n && i < |members|
        && AsksProvider(members[i]) :: ResumeCalled(t, members[i].id, members[i].provider.value) in log
  }

  /** The channel is suspended with nothing left over, and the coordinator may begin a call. */
  predicate Ready(s: System) {
    s.db.state == Suspended && s.db.launches == map[] && MayBegin(s, COORDINATOR)
  }

  lemma CleanClaim(start: System, before: seq<Action>, generation: nat, members: seq<Member>)
    returns (actions: seq<Action>, t: Token)
    requires CleanActions(before, members) && Ready(Run(start, before)) && Distinct(members)
    ensures CleanActions(actions, members)
    ensures var s, s' := Run(start, before), Run(start, actions);
            && CleanAt(s', members, generation, t, [], ReadAbandoned) && s'.log == s.log && s'.db.launches == map[]
            && s'.db.results == s.db.results
  {
    var s := Run(start, before);
    actions := Extend(start, before, Begin(COORDINATOR, KEY, generation, members), members);
    var s1 := Run(start, actions);
    assert s1 == s.(attempts := s.attempts[COORDINATOR := NewAttempt(COORDINATOR, KEY, generation, members)]);
    actions := Extend(start, actions, Advance(COORDINATOR, Well(Runtime("", ""))), members);
    var s2 := Run(start, actions);
    ClaimIsClean(s1, generation, members);
    actions := Extend(start, actions, Advance(COORDINATOR, Well(Runtime("", ""))), members);
    t := Token(COORDINATOR, KEY, s2.db.epoch);
    TokenIsClean(s2, generation, members);
  }

  lemma ClaimIsClean(s: System, generation: nat, members: seq<Member>)
    requires s.db.state == Suspended && COORDINATOR in s.attempts
    requires s.attempts[COORDINATOR] == NewAttempt(COORDINATOR, KEY, generation, members) && Distinct(members)
    ensures var s' := Next(s, Advance(COORDINATOR, Well(Runtime("", ""))));
            && s'.db == Claimed(s.db, KEY, generation, COORDINATOR) && s'.log == s.log
            && s'.attempts == s.attempts[COORDINATOR :=
               NewAttempt(COORDINATOR, KEY, generation, members).(pc := FetchToken)]
  {
    assert s.log + [] == s.log;
  }

  lemma TokenIsClean(s: System, generation: nat, members: seq<Member>)
    requires COORDINATOR in s.attempts && Distinct(members)
    requires s.attempts[COORDINATOR] == NewAttempt(COORDINATOR, KEY, generation, members).(pc := FetchToken)
    requires Current(s.db, Token(COORDINATOR, KEY, s.db.epoch))
    ensures var s' := Next(s, Advance(COORDINATOR, Well(Runtime("", ""))));
            && CleanAt(s', members, generation, Token(COORDINATOR, KEY, s.db.epoch), [], ReadAbandoned)
            && s'.db == s.db && s'.log == s.log
  {
    assert s.log + [] == s.log;
  }

  lemma CleanStart(start: System, before: seq<Action>, generation: nat, members: seq<Member>)
    returns (actions: seq<Action>, t: Token)
    requires CleanActions(before, members) && Ready(Run(start, before)) && Distinct(members)
    ensures CleanActions(actions, members)
    ensures var s, s' := Run(start, before), Run(start, actions);
            && CleanAt(s', members, generation, t, [], ReconcilePc(CleanAttempt(members, generation, t, [], Claim), 0))
            && s'.log == s.log && s'.db.launches == map[] && s'.db.results == s.db.results
  {
    actions, t := CleanClaim(start, before, generation, members);
    var s := Run(start, actions);
    assert Lists([], s.db.launches, generation);
    assert s.log + [] == s.log;
    actions := Extend(start, actions, Advance(COORDINATOR, Well(Runtime("", ""))), members);
  }

  predicate CleanOp(op: Op) {
    op.Reconcile? || op.Launch? || op.ProviderResume?
  }

  /** What a clean call says when it is renewed, and when it returns. */
  function SaidAtRenewal(members: seq<Member>, t: Token, op: Op): seq<Event>
    requires op.ProviderResume? ==> op.i < |members| && members[op.i].provider.Some?
  {
    if op.ProviderResume? then [ResumeCalled(t, members[op.i].id, members[op.i].provider.value)] else []
  }

  function SaidAtReturn(members: seq<Member>, t: Token, op: Op, r: Runtime): seq<Event>
    requires op.Launch? ==> op.i < |members|
  {
    if op.Launch? then [LaunchReturned(t, members[op.i].id, r)] else []
  }

  lemma CleanRenewal(s: System, members: seq<Member>, generation: nat, t: Token, launched: seq<Runtime>, op: Op,
      r: Runtime)
    returns (s': System)
    requires CleanAt(s, members, generation, t, launched, Renew(op)) && CleanOp(op)
    requires WellFormed(s.attempts[COORDINATOR])
    ensures s' == Next(s, Advance(COORDINATOR, Well(r)))
    ensures CleanAt(s', members, generation, t, launched, Running(op)) && s'.db == s.db
    ensures s'.log == s.log + SaidAtRenewal(members, t, op)
  {
    s' := Next(s, Advance(COORDINATOR, Well(r)));
    assert s'.attempts[COORDINATOR] == s.attempts[COORDINATOR].(pc := Running(op));
  }

  lemma CleanReturning(s: System, members: seq<Member>, generation: nat, t: Token, launched: seq<Runtime>, op: Op,
      r: Runtime)
    returns (s': System)
    requires CleanAt(s, members, generation, t, launched, Running(op)) && CleanOp(op)
    requires WellFormed(s.attempts[COORDINATOR])
    ensures s' == Next(s, Advance(COORDINATOR, Well(r)))
    ensures s'.db == s.db && COORDINATOR in s'.attempts
    ensures s'.attempts[COORDINATOR] == Returned(members, generation, t, launched, op, r)
    ensures s'.log == s.log + SaidAtReturn(members, t, op, r)
  {
    s' := Next(s, Advance(COORDINATOR, Well(r)));
  }

  /** The call has returned and is about to be checked. */
  function Returned(members: seq<Member>, generation: nat, t: Token, launched: seq<Runtime>, op: Op,
      r: Runtime): Attempt {
    CleanAttempt(members, generation, t, launched, Checking(op)).(arrived := if op.Launch? then Some(r) else None)
  }

  /** A call that is renewed and returns. */
  lemma CleanReturn(start: System, before: seq<Action>, members: seq<Member>, generation: nat, t: Token,
      launched: seq<Runtime>, op: Op, r: Runtime)
    returns (actions: seq<Action>)
    requires CleanActions(before, members) && CleanOp(op)
    requires var s := Run(start, before);
               CleanAt(s, members, generation, t, launched, Renew(op)) && WellFormed(s.attempts[COORDINATOR])
    ensures CleanActions(actions, members)
    ensures var s, s' := Run(start, before), Run(start, actions);
            && s'.db == s.db && COORDINATOR in s'.attempts
            && s'.attempts[COORDINATOR] == Returned(members, generation, t, launched, op, r)
            && s'.log == s.log + SaidAtRenewal(members, t, op) + SaidAtReturn(members, t, op, r)
  {
    var s1 := CleanRenewal(Run(start, before), members, generation, t, launched, op, r);
    actions := Extend(start, before, Advance(COORDINATOR, Well(r)), members);
    var s2 := CleanReturning(s1, members, generation, t, launched, op, r);
    actions := Extend(start, actions, Advance(COORDINATOR, Well(r)), members);
  }

  /** Where a clean call leads once it has been checked. */
  function CheckedPc(a: Attempt, op: Op): Pc
    requires CleanOp(op)
  {
    if op.Reconcile? then ReconcilePc(a, op.i + 1) else if op.Launch? then Record(op.i) else SetResumed(op.i)
  }

  lemma CleanChecking(s: System, members: seq<Member>, generation: nat, t: Token, launched: seq<Runtime>, op: Op,
      r: Runtime)
    returns (s': System)
    requires COORDINATOR in s.attempts && s.attempts[COORDINATOR] == Returned(members, generation, t, launched, op, r)
    requires CleanOp(op) && WellFormed(s.attempts[COORDINATOR]) && Current(s.db, t) && Distinct(members)
    ensures s' == Next(s, Advance(COORDINATOR, Well(r))) && s'.db == s.db && s'.log == s.log
    ensures CleanAt(s', members, generation, t, if op.Launch? then launched + [r] else launched,
                    CheckedPc(CleanAttempt(members, generation, t, launched, Checking(op)), op))
  {
    s' := Next(s, Advance(COORDINATOR, Well(r)));
    assert s.log + [] == s.log;
  }

  /** A call that is renewed, returns and is renewed again. */
  lemma CleanCall(start: System, before: seq<Action>, members: seq<Member>, generation: nat, t: Token,
      launched: seq<Runtime>, op: Op, r: Runtime)
    returns (actions: seq<Action>)
    requires CleanActions(before, members) && CleanOp(op)
    requires var s := Run(start, before);
               CleanAt(s, members, generation, t, launched, Renew(op)) && WellFormed(s.attempts[COORDINATOR])
    ensures CleanActions(actions, members)
    ensures var s, s' := Run(start, before), Run(start, actions);
            var a := CleanAttempt(members, generation, t, launched, Checking(op));
            && s'.db == s.db && CleanAt(s', members, generation, t, if op.Launch? then launched + [r]
               else launched, CheckedPc(a, op))
            && s'.log == s.log + SaidAtRenewal(members, t, op) + SaidAtReturn(members, t, op, r)
  {
    actions := CleanReturn(start, before, members, generation, t, launched, op, r);
    var s := CleanChecking(Run(start, actions), members, generation, t, launched, op, r);
    actions := Extend(start, actions, Advance(COORDINATOR, Well(r)), members);
  }

  /** With nothing left over from before, every member is reconciled. */
  lemma {:induction false} CleanReconcile(start: System, before: seq<Action>, members: seq<Member>, generation: nat,
      t: Token, i: nat) returns (actions: seq<Action>)
    requires CleanActions(before, members) && i <= |members|
    requires CleanAt(Run(start, before), members, generation, t, [],
               ReconcilePc(CleanAttempt(members, generation, t, [], Claim), i))
    ensures CleanActions(actions, members)
    ensures var s, s' := Run(start, before), Run(start, actions);
            && CleanAt(s', members, generation, t, [], LaunchPc(CleanAttempt(members, generation, t, [], Claim), 0))
            && s'.log == s.log && s'.db == s.db
    decreases |members| - i
  {
    actions := before;
    if i < |members| {
      actions := CleanCall(start, before, members, generation, t, [], Reconcile(i), Runtime("", ""));
      actions := CleanReconcile(start, actions, members, generation, t, i + 1);
    }
  }

  /** One member: launched, recorded and, if its provider is asked, resumed. */
  lemma CleanLaunch(start: System, before: seq<Action>, members: seq<Member>, generation: nat, t: Token,
      launched: seq<Runtime>, r: Runtime)
    returns (actions: seq<Action>)
    requires CleanActions(before, members) && |launched| < |members|
    requires CleanAt(Run(start, before), members, generation, t, launched, Renew(Launch(|launched|)))
    ensures CleanActions(actions, members)
    ensures var s, s' := Run(start, before), Run(start, actions);
            var m := members[|launched|];
            && CleanAt(s', members, generation, t, launched + [r], if m.provider.Some? then SetResuming(|launched|)
               else LaunchPc(CleanAttempt(members, generation, t, launched, Claim), |launched| + 1))
            && s'.log == s.log + [LaunchReturned(t, m.id, r)]
            && s'.db == Recorded(s.db, m.id, generation, r, m.provider)
  {
    actions := CleanCall(start, before, members, generation, t, launched, Launch(|launched|), r);
    actions := Extend(start, actions, Advance(COORDINATOR, Well(r)), members);
  }

  /** The row says `provider_resuming` before the provider is asked. */
  lemma ResumingIsClean(s: System, members: seq<Member>, generation: nat, t: Token, launched: seq<Runtime>)
    requires 0 < |launched| <= |members| && members[|launched| - 1].provider.Some?
    requires CleanAt(s, members, generation, t, launched, SetResuming(|launched| - 1))
    requires (members[|launched| - 1].id, generation) in s.db.launches
    ensures var s', i := Next(s, Advance(COORDINATOR, Well(Runtime("", "")))), |launched| - 1;
            && CleanAt(s', members, generation, t, launched,
                       if AsksProvider(members[i]) then Renew(ProviderResume(i)) else SetResumed(i))
            && WellFormed(s'.attempts[COORDINATOR])
            && s'.db == Phased(s.db, members[i].id, generation, ProviderResuming) && s'.log == s.log
  {
    assert s.log + [] == s.log;
  }

  /** The provider is asked, up to the point where the answer is about to be written. */
  lemma CleanResume(start: System, before: seq<Action>, members: seq<Member>, generation: nat, t: Token,
      launched: seq<Runtime>)
    returns (actions: seq<Action>)
    requires CleanActions(before, members) && 0 < |launched| <= |members| && members[|launched| - 1].provider.Some?
    requires CleanAt(Run(start, before), members, generation, t, launched, SetResuming(|launched| - 1))
    requires (members[|launched| - 1].id, generation) in Run(start, before).db.launches
    ensures CleanActions(actions, members)
    ensures var s, s' := Run(start, before), Run(start, actions);
            var m := members[|launched| - 1];
            && CleanAt(s', members, generation, t, launched, SetResumed(|launched| - 1))
               && (m.id, generation) in s'.db.launches
            && s'.log == s.log + if AsksProvider(m) then [ResumeCalled(t, m.id, m.provider.value)] else []
  {
    ResumingIsClean(Run(start, before), members, generation, t, launched);
    actions := Extend(start, before, Advance(COORDINATOR, Well(Runtime("", ""))), members);
    if AsksProvider(members[|launched| - 1]) {
      actions := CleanCall(start, actions, members, generation, t, launched, ProviderResume(|launched| - 1),
          Runtime("", ""));
    }
  }

  /** The provider's answer is written. */
  lemma CleanResumed(start: System, before: seq<Action>, members: seq<Member>, generation: nat, t: Token,
      launched: seq<Runtime>)
    returns (actions: seq<Action>)
    requires CleanActions(before, members) && 0 < |launched| <= |members| && members[|launched| - 1].provider.Some?
    requires CleanAt(Run(start, before), members, generation, t, launched, SetResumed(|launched| - 1))
    requires (members[|launched| - 1].id, generation) in Run(start, before).db.launches
    ensures CleanActions(actions, members)
    ensures var s, s' := Run(start, before), Run(start, actions);
            CleanAt(s', members, generation, t, launched,
                LaunchPc(CleanAttempt(members, generation, t, launched, Claim), |launched|)) && s'.log == s.log
  {
    actions := Extend(start, before, Advance(COORDINATOR, Well(Runtime("", ""))), members);
  }

  /** What one whole member adds to the log. */
  function MemberLog(t: Token, m: Member): seq<Event> {
    [LaunchReturned(t, m.id, Runtime("", ""))] + if AsksProvider(m) then [ResumeCalled(t, m.id, m.provider.value)]
        else []
  }

  lemma CleanMember(start: System, before: seq<Action>, members: seq<Member>, generation: nat, t: Token,
      launched: seq<Runtime>)
    returns (actions: seq<Action>)
    requires CleanActions(before, members) && |launched| < |members|
    requires CleanAt(Run(start, before), members, generation, t, launched, Renew(Launch(|launched|)))
    ensures CleanActions(actions, members)
    ensures CleanAt(Run(start, actions), members, generation, t, launched + [Runtime("", "")],
                    LaunchPc(CleanAttempt(members, generation, t, launched, Claim), |launched| + 1))
    ensures Run(start, actions).log == Run(start, before).log + MemberLog(t, members[|launched|])
  {
    var m := members[|launched|];
    var more := launched + [Runtime("", "")];
    actions := CleanLaunch(start, before, members, generation, t, launched, Runtime("", ""));
    if m.provider.Some? {
      actions := CleanResume(start, actions, members, generation, t, more);
      actions := CleanResumed(start, actions, members, generation, t, more);
    }
  }

  /** The first `n` members are launched and resumed one after the other; the log holds only that. */
  lemma {:induction false} CleanRun(start: System, members: seq<Member>, generation: nat, n: nat)
    returns (actions: seq<Action>, t: Token, launched: seq<Runtime>)
    requires Start(start) && Distinct(members) && n <= |members|
    ensures CleanActions(actions, members) && |launched| == n
    ensures var s := Run(start, actions);
            CleanAt(s, members, generation, t, launched,
                LaunchPc(CleanAttempt(members, generation, t, launched, Claim), n))
            && CleanLog(s.log) && Calls(s.log, t, members, n)
  {
    if n == 0 {
      launched := [];
      actions, t := CleanStart(start, [], generation, members);
      actions := CleanReconcile(start, actions, members, generation, t, 0);
    } else {
      actions, t, launched := CleanRun(start, members, generation, n - 1);
      actions := CleanMember(start, actions, members, generation, t, launched);
      launched := launched + [Runtime("", "")];
    }
  }

  // ---------------------------------------------------------------- how an attempt gets stuck

  /** A provider has been asked to resume its conversation, and then the lease runs out. */
  lemma LeaseLostInProvider(start: System, m: Member) returns (actions: seq<Action>, t: Token)
    requires Start(start) && AsksProvider(m)
    ensures var s := Run(start, actions); Stuck(s) && ResumeCalled(t, m.id, m.provider.value) in s.log
  {
    var launched := [Runtime("", "")];
    actions, t := CleanStart(start, [], 0, [m]);
    actions := CleanReconcile(start, actions, [m], 0, t, 0);
    actions := CleanLaunch(start, actions, [m], 0, t, [], Runtime("", ""));
    var before := Run(start, actions);
    actions := Extend(start, actions, Advance(COORDINATOR, Well(Runtime("", ""))), [m]);
    ResumingIsClean(before, [m], 0, t, launched);
    var asking := CleanRenewal(Run(start, actions), [m], 0, t, launched, ProviderResume(0), Runtime("", ""));
    actions := Extend(start, actions, Advance(COORDINATOR, Well(Runtime("", ""))), [m]);
    actions := Extend(start, actions, Expire, [m]);
    var s := Run(start, actions);
    assert s.attempts == asking.attempts && s.db == asking.db.(live := false) && s.log == asking.log;
    RunSafe(start, actions);
    LostLease(s);
    assert s.db.launches[(m.id, 0)].phase == ProviderResuming;
  }

  lemma LostLease(s: System)
    requires Safe(s) && s.db.state == Resuming && !s.db.live
    requires exists k :: k in s.db.launches && s.db.launches[k].phase == ProviderResuming
    ensures Stuck(s)
  {
    forall o, i | o in s.attempts && 0 <= i < |s.attempts[o].members|
        && Armed(s.attempts[o], i) ensures s.attempts[o].token.Some? {
      assert WellFormed(s.attempts[o]);
    }
  }

  // ---------------------------------------------------------------- at most once, per conversation

  /** No two members of the blueprint that are resumed by a provider share a conversation. */
  predicate DistinctConversations(members: seq<Member>) {
    forall i, j | 0 <= i < j < |members| && AsksProvider(members[i])
        && AsksProvider(members[j]) :: members[i].provider != members[j].provider
  }

  /** Between any two calls for one conversation, the first is rolled back or committed. */
  ghost predicate ConversationsOnce(log: seq<Event>) {
    forall i, j | 0 <= i < j < |log| && log[i].ResumeCalled? && log[j].ResumeCalled?
        && log[i].conversation == log[j].conversation ::
      exists k :: i < k < j && Settles(log[i], log[k])
  }

  /** The calls that a run over one blueprint makes are for members of that blueprint. */
  ghost predicate FromBlueprint(s: System, members: seq<Member>) {
    && (forall o | o in s.attempts :: s.attempts[o].members == members)
    && (forall e | e in s.log && e.ResumeCalled? ::
          exists i ::
              0 <= i < |members| && AsksProvider(members[i]) && members[i].id == e.member
              && members[i].provider == Some(e.conversation))
  }

  lemma {:induction false} RunFromBlueprint(start: System, actions: seq<Action>, members: seq<Member>)
    requires Start(start) && UsesOnly(actions, members)
    ensures FromBlueprint(Run(start, actions), members)
  {
    if actions != [] {
      var init, last := actions[..|actions| - 1], actions[|actions| - 1];
      RunFromBlueprint(start, init, members);
      var s := Run(start, init);
      if last.Advance? && last.owner in s.attempts && WellFormed(s.attempts[last.owner]) {
        AdvanceFromBlueprint(s, last.owner, last.choice, members);
      }
    }
  }

  lemma AdvanceFromBlueprint(s: System, o: Owner, ch: Choice, members: seq<Member>)
    requires FromBlueprint(s, members) && o in s.attempts && WellFormed(s.attempts[o])
    ensures FromBlueprint(Next(s, Advance(o, ch)), members)
  {
    var e := Step(s.db, s.attempts[o], ch);
    CallsAreForMembers(s.db, s.attempts[o], ch);
    MembersStay(s.db, s.attempts[o], ch);
    assert forall x | x in s.log + e.events :: x in s.log || x in e.events;
  }

  lemma MembersStay(db: Db, a: Attempt, ch: Choice)
    requires WellFormed(a)
    ensures Step(db, a, ch).attempt.members == a.members
  {
    if a.pc.Renew? {
      FailWellFormed(a, a.pc.op);
    } else if a.pc.Running? {
      RunningIsIndecisive(db, a, ch);
    } else if a.pc.Checking? {
      CheckingIsIndecisive(db, a, ch);
    }
  }

  lemma CallsAreForMembers(db: Db, a: Attempt, ch: Choice)
    requires WellFormed(a)
    ensures forall e | e in Step(db, a, ch).events && e.ResumeCalled? ::
              exists i ::
                  0 <= i < |a.members| && AsksProvider(a.members[i]) && a.members[i].id == e.member
                  && a.members[i].provider == Some(e.conversation)
  {
    if a.pc.Renew? && a.pc.op.ProviderResume? {
      var m := a.members[a.pc.op.i];
      assert AsksProvider(m);
    }
  }

  /** With distinct conversations a conversation is its member's alone, so at most once holds for it too. */
  lemma DistinctMeansOnce(start: System, actions: seq<Action>, members: seq<Member>)
    requires Start(start) && UsesOnly(actions, members) && DistinctConversations(members)
    ensures ConversationsOnce(Run(start, actions).log)
  {
    var s := Run(start, actions);
    RunFromBlueprint(start, actions, members);
    forall i, j | 0 <= i < j < |s.log| && s.log[i].ResumeCalled? && s.log[j].ResumeCalled?
        && s.log[i].conversation == s.log[j].conversation
      ensures exists k :: i < k < j && Settles(s.log[i], s.log[k])
    {
      assert s.log[i] in s.log && s.log[j] in s.log;
      assert s.log[i].member == s.log[j].member;
      var k := AtMostOnce(start, actions, i, j);
    }
  }

  /** Two members with one conversation: a run in which nothing fails resumes it twice. */
  lemma SharedMeansTwice(start: System, members: seq<Member>, i: nat, j: nat) returns (actions: seq<Action>)
    requires Start(start) && Distinct(members) && i < j < |members|
    requires AsksProvider(members[i]) && AsksProvider(members[j]) && members[i].provider == members[j].provider
    ensures UsesOnly(actions, members) && !ConversationsOnce(Run(start, actions).log)
  {
    var t, launched;
    actions, t, launched := CleanRun(start, members, 0, |members|);
    var log := Run(start, actions).log;
    var x, y := ResumeCalled(t, members[i].id, members[i].provider.value),
        ResumeCalled(t, members[j].id, members[j].provider.value);
    assert x in log && y in log && x != y;
    var p :| 0 <= p < |log| && log[p] == x;
    var q :| 0 <= q < |log| && log[q] == y;
    assert forall k | 0 <= k < |log| :: !Settles(x, log[k]) && !Settles(y, log[k]);
  }

  /**
   Per conversation, at most once holds in every run over a blueprint if and only if no two of its
   members share a conversation. Blueprint validation only makes the member ids distinct.
   */
  lemma ConversationOnceIffDistinct(members: seq<Member>, start: System)
    requires Start(start) && Distinct(members)
    ensures DistinctConversations(members) <==>
              forall actions: seq<Action> | UsesOnly(actions, members) :: ConversationsOnce(Run(start, actions).log)
  {
    if DistinctConversations(members) {
      forall actions: seq<Action> | UsesOnly(actions, members) ensures ConversationsOnce(Run(start, actions).log) {
        DistinctMeansOnce(start, actions, members);
      }
    } else {
      var i, j :| 0 <= i < j < |members| && AsksProvider(members[i]) && AsksProvider(members[j])
          && members[i].provider == members[j].provider;
      var actions := SharedMeansTwice(start, members, i, j);
    }
  }

  // ---------------------------------------------------------------- a dropped launch

  lemma CleanStep(start: System, before: seq<Action>, members: seq<Member>, ch: Choice) returns (actions: seq<Action>)
    requires CleanActions(before, members)
    ensures CleanActions(actions, members) && Run(start, actions) == Next(Run(start, before), Advance(COORDINATOR, ch))
  {
    actions := Extend(start, before, Advance(COORDINATOR, ch), members);
  }

  /** The launch of the first member returns, but the heartbeat has given the lease up. */
  lemma LaunchIsDropped(start: System, m: Member, r: Runtime) returns (actions: seq<Action>, t: Token)
    requires Start(start)
    ensures CleanActions(actions, [m])
    ensures DroppedAt(Run(start, actions), m, r, t, ReadDurable)
  {
    actions, t := CleanStart(start, [], 0, [m]);
    actions := CleanReconcile(start, actions, [m], 0, t, 0);
    actions := CleanReturn(start, actions, [m], 0, t, [], Launch(0), r);
    FlagDrops(Run(start, actions), m, r, t);
    actions := CleanStep(start, actions, [m], Well(r).(flagged := true));
  }

  lemma FlagDrops(s: System, m: Member, r: Runtime, t: Token)
    requires COORDINATOR in s.attempts && s.attempts[COORDINATOR] == Returned([m], 0, t, [], Launch(0), r)
    requires Current(s.db, t) && t.owner == COORDINATOR && t.key == KEY && s.db.launches == map[]
    requires s.log == [LaunchReturned(t, m.id, r)]
    ensures DroppedAt(Next(s, Advance(COORDINATOR, Well(r).(flagged := true))), m, r, t, ReadDurable)
  {
  }

  predicate DroppedAt(s: System, m: Member, r: Runtime, t: Token, pc: Pc) {
    && COORDINATOR in s.attempts && s.attempts[COORDINATOR] == CleanAttempt([m], 0, t, [], pc)
    && Current(s.db, t) && t.owner == COORDINATOR && t.key == KEY && s.db.launches == map[]
    && s.log == [LaunchReturned(t, m.id, r), Dropped(t, m.id, r, true, true)]
  }

  /** With nothing kept and no row to undo, the teardown only goes through the motions. */
  predicate EmptyTeardown(pc: Pc, pc': Pc) {
    || (pc.ReadDurable? && pc' == Renew(RollbackGeneration))
    || (pc == Renew(RollbackGeneration) && pc' == Running(RollbackGeneration))
    || (pc == Running(RollbackGeneration) && pc' == Checking(RollbackGeneration))
    || (pc == Checking(RollbackGeneration) && pc' == Release)
  }

  lemma NothingIsStopped(s: System, m: Member, r: Runtime, t: Token, pc: Pc, pc': Pc)
    requires DroppedAt(s, m, r, t, pc) && EmptyTeardown(pc, pc')
    ensures DroppedAt(Next(s, Advance(COORDINATOR, Well(r))), m, r, t, pc')
  {
    var s' := Next(s, Advance(COORDINATOR, Well(r)));
    assert s'.log == s.log && s'.db == s.db;
    assert s'.attempts[COORDINATOR] == s.attempts[COORDINATOR].(pc := pc');
  }

  lemma TeardownFindsNothing(start: System, before: seq<Action>, m: Member, r: Runtime, t: Token)
      returns (actions: seq<Action>)
    requires CleanActions(before, [m]) && DroppedAt(Run(start, before), m, r, t, ReadDurable)
    ensures CleanActions(actions, [m]) && DroppedAt(Run(start, actions), m, r, t, Release)
  {
    var generation := RollbackGeneration;
    NothingIsStopped(Run(start, before), m, r, t, ReadDurable, Renew(generation));
    actions := CleanStep(start, before, [m], Well(r));
    NothingIsStopped(Run(start, actions), m, r, t, Renew(generation), Running(generation));
    actions := CleanStep(start, actions, [m], Well(r));
    NothingIsStopped(Run(start, actions), m, r, t, Running(generation), Checking(generation));
    actions := CleanStep(start, actions, [m], Well(r));
    NothingIsStopped(Run(start, actions), m, r, t, Checking(generation), Release);
    actions := CleanStep(start, actions, [m], Well(r));
  }

  /**
   A launch whose lease the heartbeat gave up by mistake: the result is thrown away although the token
   is still current, the teardown finds nothing to stop, and the claim is released while that runtime
   is running.
   */
  lemma DroppedLaunchIsNotStopped(start: System, m: Member, r: Runtime) returns (actions: seq<Action>, t: Token)
    requires Start(start)
    ensures Run(start, actions).log == [LaunchReturned(t, m.id, r), Dropped(t, m.id, r, true, true), Freed(t, [])]
    ensures Run(start, actions).db.state == Suspended
  {
    actions, t := LaunchIsDropped(start, m, r);
    actions := TeardownFindsNothing(start, actions, m, r, t);
    actions := CleanStep(start, actions, [m], Well(r));
  }
}
