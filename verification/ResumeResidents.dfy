/**
 Who lives where: what the store says about the members of a channel after a resume has committed,
 after one was given up, and after the leftovers of a crashed one were forgotten.
 */
module ResumeResidents {
  import opened Options
  import opened BlueprintStore
  import opened ResumeSaga
  import opened ResumeSafety
  import opened ResumeSteps
  import opened ResumeTheorems
  import opened ResumeHistory

  type Residents = map<MemberId, Resident>

  /** Member `m` lives in `runtime`, put there by the resume of `generation`. */
  predicate LivesIn(residents: Residents, m: MemberId, runtime: Runtime, generation: nat) {
    m in residents && residents[m].runtime == runtime && residents[m].generation == generation
  }

  predicate NobodyOf(residents: Residents, generation: nat) {
    forall m | m in residents :: residents[m].generation != generation
  }

  /** Each member of a committed blueprint lives in the runtime that the result names. */
  predicate AsCommitted(residents: Residents, e: Event)
    requires e.Committed?
  {
    && |e.result| == |e.members|
    && forall i | 0 <= i < |e.members| ::
         && e.result[i].member == e.members[i].id
         && LivesIn(residents, e.members[i].id, e.result[i].runtime, e.result[i].generation)
  }

  /** The last commit or release, if there was one. */
  function LastEnd(log: seq<Event>): Option<Event> {
    if log == [] then None
    else
      var last := log[|log| - 1];
      if last.Committed? || last.Freed? then Some(last) else LastEnd(log[..|log| - 1])
  }

  lemma LastEndNext(log: seq<Event>, events: seq<Event>)
    requires |events| <= 1
    ensures LastEnd(log + events)
              == if events != [] && (events[0].Committed? || events[0].Freed?) then Some(events[0]) else LastEnd(log)
  {
    if events == [] {
      assert log + events == log;
    } else {
      assert (log + events)[..|log|] == log;
    }
  }

  // ---------------------------------------------------------------- the invariant

  predicate InstalledOp(op: Op) {
    op.Reattach? || op.Deliver?
  }

  predicate FreshOp(op: Op) {
    op.Reconcile? || op.Launch? || op.ProviderResume?
  }

  /** Between the installation and the commit. */
  predicate HasInstalled(pc: Pc) {
    pc.Fetch? || pc.Acknowledging? || pc.Commit?
    || ((pc.Renew? || pc.Running? || pc.Checking?) && InstalledOp(pc.op))
  }

  /** Between the recovery and the installation. */
  predicate HasRecovered(pc: Pc) {
    pc.Record? || pc.SetResuming? || pc.SetResumed? || pc.Install?
    || ((pc.Renew? || pc.Running? || pc.Checking?) && FreshOp(pc.op))
  }

  predicate AllIn(residents: Residents, a: Attempt) {
    && |a.launched| == |a.members|
    && forall i | 0 <= i < |a.members| :: LivesIn(residents, a.members[i].id, a.launched[i], a.generation)
  }

  /** What the attempt that owns the store may rely on. */
  predicate Housed(db: Db, a: Attempt) {
    Owns(db, a) ==>
      && (HasInstalled(a.pc) ==> AllIn(db.residents, a))
      && (HasRecovered(a.pc) && a.abandoned != [] ==> NobodyOf(db.residents, a.generation))
  }

  predicate Settled(db: Db, log: seq<Event>) {
    db.state != Resuming && LastEnd(log).Some? ==>
      var e := LastEnd(log).value;
      if e.Committed? then AsCommitted(db.residents, e) else NobodyOf(db.residents, db.generation)
  }

  ghost predicate Residing(s: System) {
    Settled(s.db, s.log) && forall o | o in s.attempts :: Housed(s.db, s.attempts[o])
  }

  // ---------------------------------------------------------------- installing

  lemma {:induction false} InstallHouses(db: Db, a: Attempt, n: nat)
    requires n <= |a.launched| <= |a.members| && Distinct(a.members)
    ensures forall i | 0 <= i < n ::
              LivesIn(InstallAll(db, a, n).residents, a.members[i].id, a.launched[i], a.generation)
  {
    if n > 0 { InstallHouses(db, a, n - 1); }
  }

  // ---------------------------------------------------------------- steps

  /** Which residents a step may change, and that only the holder of the lease changes them. */
  lemma ResidentsStay(db: Db, a: Attempt, ch: Choice)
    requires WellFormed(a) && !a.pc.Install? && !a.pc.ForgetAbandoned? && !a.pc.Release?
    ensures Step(db, a, ch).db.residents == db.residents
  {
    if a.pc.Renew? || a.pc.Running? || a.pc.Checking? {
      CallsLeaveTheStore(db, a, ch);
    } else {
      WritesLeaveResidents(db, a, ch);
    }
  }

  lemma WritesLeaveResidents(db: Db, a: Attempt, ch: Choice)
    requires WellFormed(a) && !a.pc.Install? && !a.pc.ForgetAbandoned? && !a.pc.Release?
    requires !a.pc.Renew? && !a.pc.Running? && !a.pc.Checking?
    ensures Step(db, a, ch).db.residents == db.residents
  {
  }

  lemma StaleLeavesResidents(db: Db, a: Attempt, ch: Choice)
    requires WellFormed(a) && (a.pc.Install? || a.pc.ForgetAbandoned? || a.pc.Release?)
    requires !Current(db, a.token.value)
    ensures Step(db, a, ch).db.residents == db.residents
  {
  }

  lemma InstallStepHouses(db: Db, a: Attempt, ch: Choice)
    requires WellFormed(a) && a.pc.Install?
    ensures Housed(Step(db, a, ch).db, Step(db, a, ch).attempt)
  {
    InstallHouses(db, a, |a.launched|);
  }

  /** From `a` to `b` the attempt does not pass the installation, nor the end of the recovery. */
  predicate Flows(a: Attempt, b: Attempt) {
    && (HasInstalled(b.pc) ==>
          HasInstalled(a.pc) && b.launched == a.launched && b.members == a.members && b.generation == a.generation)
    && (HasRecovered(b.pc) && b.abandoned != [] ==>
          HasRecovered(a.pc) && a.abandoned == b.abandoned && b.generation == a.generation)
  }

  lemma FlowHouses(db: Db, db': Db, a: Attempt, b: Attempt)
    requires Housed(db, a) && Flows(a, b) && db'.residents == db.residents
    requires Owns(db', b) && (HasInstalled(b.pc) || HasRecovered(b.pc)) ==> Owns(db, a)
    ensures Housed(db', b)
  {
  }

  lemma RenewFlows(db: Db, a: Attempt, ch: Choice)
    requires WellFormed(a) && a.pc.Renew?
    ensures var b := RenewStep(db, a, a.pc.op, ch).attempt;
            Flows(a, b) && b.token == a.token && b.owner == a.owner && b.key == a.key
  {
  }

  lemma FailFlows(a: Attempt, op: Op)
    requires WellFormed(a) && OpOk(a, op)
    ensures var b := Fail(a, op);
            !HasInstalled(b.pc) && !HasRecovered(b.pc) && b.token == a.token && b.owner == a.owner && b.key == a.key
  {
  }

  lemma ReturnFlows(db: Db, a: Attempt, ch: Choice)
    requires WellFormed(a) && a.pc.Running? && ch.reply.Returns? && !(a.pc.op.Deliver? && !ch.accepted)
    ensures var b := RunningStep(db, a, a.pc.op, ch).attempt;
            Flows(a, b) && b.token == a.token && b.owner == a.owner && b.key == a.key
  {
  }

  lemma RunningFlows(db: Db, a: Attempt, ch: Choice)
    requires WellFormed(a) && a.pc.Running?
    ensures var b := RunningStep(db, a, a.pc.op, ch).attempt;
            Flows(a, b) && b.token == a.token && b.owner == a.owner && b.key == a.key
  {
    if ch.reply.Returns? && !(a.pc.op.Deliver? && !ch.accepted) {
      ReturnFlows(db, a, ch);
    } else {
      FailFlows(a, a.pc.op);
    }
  }

  lemma CheckingFlows(db: Db, a: Attempt, ch: Choice)
    requires WellFormed(a) && a.pc.Checking?
    ensures var b := CheckingStep(db, a, a.pc.op, ch).attempt;
            Flows(a, b) && b.token == a.token && b.owner == a.owner && b.key == a.key
  {
    if !ch.flagged && Current(db, a.token.value) { SucceedFlows(a, a.pc.op); }
  }

  lemma SucceedFlows(a: Attempt, op: Op)
    requires WellFormed(a) && a.pc == Checking(op)
    ensures var b := Succeed(a, op); Flows(a, b) && b.token == a.token && b.owner == a.owner && b.key == a.key
  {
  }

  lemma CallsHouse(db: Db, a: Attempt, ch: Choice)
    requires WellFormed(a) && (a.pc.Renew? || a.pc.Running? || a.pc.Checking?) && Housed(db, a)
    ensures Housed(Step(db, a, ch).db, Step(db, a, ch).attempt)
  {
    CallsLeaveTheStore(db, a, ch);
    if a.pc.Renew? { RenewFlows(db, a, ch); } else if a.pc.Running? { RunningFlows(db, a, ch); } else {
      CheckingFlows(db, a, ch);
    }
    FlowHouses(db, db, a, Step(db, a, ch).attempt);
  }

  lemma ForgetHouses(db: Db, a: Attempt, ch: Choice)
    requires WellFormed(a) && a.pc.ForgetAbandoned?
    ensures Housed(Step(db, a, ch).db, Step(db, a, ch).attempt)
  {
  }

  lemma RecordsHouse(db: Db, a: Attempt, ch: Choice)
    requires WellFormed(a) && Housed(db, a) && (a.pc.Record? || a.pc.SetResuming? || a.pc.SetResumed?)
    ensures Housed(Step(db, a, ch).db, Step(db, a, ch).attempt)
  {
  }

  lemma FetchHouses(db: Db, a: Attempt, ch: Choice)
    requires WellFormed(a) && Housed(db, a) && a.pc.Fetch?
    ensures Housed(Step(db, a, ch).db, Step(db, a, ch).attempt)
  {
  }

  lemma AcknowledgeHouses(db: Db, a: Attempt, ch: Choice)
    requires WellFormed(a) && Housed(db, a) && (a.pc.Acknowledging? || a.pc.Commit?)
    ensures Housed(Step(db, a, ch).db, Step(db, a, ch).attempt)
  {
  }

  lemma ClaimsHouse(db: Db, a: Attempt, ch: Choice)
    requires WellFormed(a) && (a.pc.Claim? || a.pc.FetchToken? || a.pc.ReadAbandoned?)
    ensures Housed(Step(db, a, ch).db, Step(db, a, ch).attempt)
  {
  }

  lemma EndsHouse(db: Db, a: Attempt, ch: Choice)
    requires WellFormed(a) && Housed(db, a)
    requires a.pc.ReadDurable? || a.pc.Release? || a.pc.Finished? || a.pc.Failed? || a.pc.Crashed?
    ensures Housed(Step(db, a, ch).db, Step(db, a, ch).attempt)
  {
  }

  lemma StepHouses(db: Db, a: Attempt, ch: Choice)
    requires WellFormed(a) && Housed(db, a)
    ensures Housed(Step(db, a, ch).db, Step(db, a, ch).attempt)
  {
    if a.pc.Install? {
      InstallStepHouses(db, a, ch);
    } else if a.pc.Renew? || a.pc.Running? || a.pc.Checking? {
      CallsHouse(db, a, ch);
    } else if a.pc.ForgetAbandoned? {
      ForgetHouses(db, a, ch);
    } else if a.pc.Record? || a.pc.SetResuming? || a.pc.SetResumed? {
      RecordsHouse(db, a, ch);
    } else if a.pc.Fetch? {
      FetchHouses(db, a, ch);
    } else if a.pc.Acknowledging? || a.pc.Commit? {
      AcknowledgeHouses(db, a, ch);
    } else if a.pc.Claim? || a.pc.FetchToken? || a.pc.ReadAbandoned? {
      ClaimsHouse(db, a, ch);
    } else {
      EndsHouse(db, a, ch);
    }
  }

  // ---------------------------------------------------------------- everyone else

  /** Whoever else has the lease now had it before, unless this step was a claim of his own. */
  lemma BystanderHoused(db: Db, a: Attempt, ch: Choice, c: Attempt, log: seq<Event>)
    requires WellFormed(a) && Housed(db, c) && AttemptOk(db, c, log) && a.owner != c.owner
    ensures Housed(Step(db, a, ch).db, c)
  {
    var db' := Step(db, a, ch).db;
    StepRevivesNothing(db, a, ch);
    if Owns(db', c) {
      assert db'.epoch == db.epoch && Owns(db, c);
      if a.pc.Install? || a.pc.ForgetAbandoned? || a.pc.Release? {
        assert db.owner == Some(c.owner) && a.token.value.owner == a.owner;
        StaleLeavesResidents(db, a, ch);
      } else {
        ResidentsStay(db, a, ch);
      }
    }
  }

  // ---------------------------------------------------------------- the ends

  /** Ends are said as they come about: a commit activates, a release suspends, and nothing else ends a resume. */
  lemma StepEnds(db: Db, a: Attempt, ch: Choice)
    requires WellFormed(a)
    ensures var e := Step(db, a, ch);
            && |e.events| <= 1
            && (e.events != [] && e.events[0].Committed? ==>
                  a.pc.Commit? && Current(db, a.token.value)
                  && e.db.residents == db.residents && e.events[0] == Committed(a.token.value, a.members, Outcomes(a)))
            && (e.events != [] && e.events[0].Freed? ==>
                  a.pc.Release? && Current(db, a.token.value) && e.db.generation == db.generation
                  && e.db.residents == MembersRolledBack(db, a.generation).residents)
  {
    if a.pc.Renew? || a.pc.Running? || a.pc.Checking? { CallsEndNothing(db, a, ch); }
  }

  lemma CallsEndNothing(db: Db, a: Attempt, ch: Choice)
    requires WellFormed(a) && (a.pc.Renew? || a.pc.Running? || a.pc.Checking?)
    ensures var e := Step(db, a, ch);
            |e.events| <= 1 && (e.events != [] ==> !e.events[0].Committed? && !e.events[0].Freed?)
  {
  }

  /** Outside a resume nothing changes hands, and a step that leaves a resume says how it ended. */
  lemma StepOutside(db: Db, a: Attempt, ch: Choice)
    requires WellFormed(a)
    ensures var e := Step(db, a, ch);
            && (e.db.state != Resuming && db.state == Resuming ==>
                  e.events != [] && (e.events[0].Committed? || e.events[0].Freed?))
            && (e.db.state != Resuming && db.state != Resuming ==>
                  e.db.residents == db.residents && e.db.generation == db.generation
                  && (e.events != [] ==> !e.events[0].Committed? && !e.events[0].Freed?))
  {
    if a.pc.Renew? || a.pc.Running? || a.pc.Checking? {
      CallsLeaveTheStore(db, a, ch);
      CallsEndNothing(db, a, ch);
    } else if a.pc.Install? {
      InstallLeavesRows(db, a, |a.launched|);
      if !Current(db, a.token.value) { StaleLeavesResidents(db, a, ch); }
    } else if a.pc.Commit? || a.pc.Release? || a.pc.ForgetAbandoned? {
      TransactionOutside(db, a, ch);
    } else {
      OtherOutside(db, a, ch);
    }
  }

  lemma TransactionOutside(db: Db, a: Attempt, ch: Choice)
    requires WellFormed(a) && (a.pc.Commit? || a.pc.Release? || a.pc.ForgetAbandoned?)
    ensures var e := Step(db, a, ch);
            && (e.db.state != Resuming && db.state == Resuming ==>
                  e.events != [] && (e.events[0].Committed? || e.events[0].Freed?))
            && (e.db.state != Resuming && db.state != Resuming ==> e.db == db && e.events == [])
  {
  }

  lemma OtherOutside(db: Db, a: Attempt, ch: Choice)
    requires WellFormed(a) && !a.pc.Renew? && !a.pc.Running? && !a.pc.Checking? && !a.pc.Install?
    requires !a.pc.Commit? && !a.pc.Release? && !a.pc.ForgetAbandoned?
    ensures var e := Step(db, a, ch);
            && (e.db.state != Resuming ==> db.state != Resuming && e.db.residents == db.residents)
            && (e.db.state != Resuming ==> e.db.generation == db.generation)
            && (e.events != [] ==> !e.events[0].Committed? && !e.events[0].Freed?)
  {
  }

  lemma CommitSettles(db: Db, a: Attempt)
    requires WellFormed(a) && a.pc.Commit? && AllIn(db.residents, a)
    ensures AsCommitted(db.residents, Committed(a.token.value, a.members, Outcomes(a)))
  {
  }

  lemma StepSettles(db: Db, a: Attempt, ch: Choice, log: seq<Event>)
    requires WellFormed(a) && Settled(db, log) && Housed(db, a) && AttemptOk(db, a, log)
    ensures Settled(Step(db, a, ch).db, log + Step(db, a, ch).events)
  {
    var e := Step(db, a, ch);
    StepEnds(db, a, ch);
    StepOutside(db, a, ch);
    LastEndNext(log, e.events);
    if e.db.state != Resuming && db.state == Resuming {
      if e.events[0].Committed? { CommitSettles(db, a); }
    }
  }

  lemma NextResides(s: System, action: Action)
    requires Safe(s) && Residing(s)
    ensures Residing(Next(s, action))
  {
    var s' := Next(s, action);
    if action.Advance? && action.owner in s.attempts && WellFormed(s.attempts[action.owner]) {
      var o, ch := action.owner, action.choice;
      var a := s.attempts[o];
      StepSettles(s.db, a, ch, s.log);
      StepHouses(s.db, a, ch);
      forall p | p in s'.attempts ensures Housed(s'.db, s'.attempts[p]) {
        if p != o { BystanderHoused(s.db, a, ch, s.attempts[p], s.log); }
      }
    }
  }

  lemma {:induction false} RunResides(start: System, actions: seq<Action>)
    requires Start(start)
    ensures Residing(Run(start, actions))
  {
    if actions != [] {
      var init := actions[..|actions| - 1];
      RunResides(start, init);
      RunSafe(start, init);
      NextResides(Run(start, init), actions[|actions| - 1]);
    }
  }

  // ---------------------------------------------------------------- theorems

  /**
   Who lives where. In every run, whenever no resume is under way: if the last one to end has committed,
   then each of its members lives in the very runtime, under the very generation, that the result names
   for it; if it was given up, nobody of its generation is left.
   */
  lemma WhoLivesWhere(start: System, actions: seq<Action>)
    requires Start(start)
    requires var s := Run(start, actions); s.db.state != Resuming && LastEnd(s.log).Some?
    ensures var s := Run(start, actions);
            match LastEnd(s.log).value
            case Committed(_, members, result) =>
              && |result| == |members|
              && forall i | 0 <= i < |members| ::
                   && members[i].id in s.db.residents && result[i].member == members[i].id
                   && s.db.residents[members[i].id].runtime == result[i].runtime
                   && s.db.residents[members[i].id].generation == result[i].generation
            case _ => forall m | m in s.db.residents :: s.db.residents[m].generation != s.db.generation
  {
    RunResides(start, actions);
  }

  /** A resume that recovers from a crashed one starts with nobody left over from it. */
  lemma NobodyIsLeftOver(start: System, actions: seq<Action>, o: Owner)
    requires Start(start)
    requires var s := Run(start, actions);
             && o in s.attempts && Owns(s.db, s.attempts[o]) && s.attempts[o].abandoned != []
             && (s.attempts[o].pc.Record? || s.attempts[o].pc.Install?
                 || (s.attempts[o].pc.Renew? && s.attempts[o].pc.op.Launch?))
    ensures var s := Run(start, actions);
            forall m | m in s.db.residents :: s.db.residents[m].generation != s.attempts[o].generation
  {
    RunResides(start, actions);
    assert Housed(Run(start, actions).db, Run(start, actions).attempts[o]);
  }
}
