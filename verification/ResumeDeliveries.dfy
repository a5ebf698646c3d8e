/** Nothing that was pending when a resume was claimed is forgotten by the time it commits. */
module ResumeDeliveries {
  import opened Options
  import opened BlueprintStore
  import opened ResumeSaga
  import opened ResumeSafety
  import opened ResumeSteps
  import opened ResumeTheorems
  import opened ResumeHistory
  import opened ResumeRuns
  import opened ResumeAgain

  type Acks = set<(MemberId, string)>

  /** Whatever of `queue` is behind this member's cursor is acknowledged, but for what is in `rest`. */
  predicate DoneBut(queue: set<Delivery>, acks: Acks, m: Member, rest: seq<Delivery>) {
    forall d | d in queue && d.cursor > m.cursor :: (m.id, d.id) in acks || d in rest
  }

  predicate DoneUpTo(queue: set<Delivery>, acks: Acks, members: seq<Member>, n: nat) {
    forall i | 0 <= i < n && i < |members| :: DoneBut(queue, acks, members[i], [])
  }

  predicate DeliveringTo(queue: set<Delivery>, acks: Acks, members: seq<Member>, i: nat, rest: seq<Delivery>) {
    i < |members| && DoneUpTo(queue, acks, members, i) && DoneBut(queue, acks, members[i], rest)
  }

  /** How much a call that still holds the lease has delivered. */
  predicate Progressed(queue: set<Delivery>, db: Db, a: Attempt)
    requires WellFormed(a)
  {
    a.token.Some? && Current(db, a.token.value) ==>
      && (a.pc.Fetch? ==> DoneUpTo(queue, db.acks, a.members, a.pc.i))
      && (a.pc.Commit? ==> DoneUpTo(queue, db.acks, a.members, |a.members|))
      && (a.pc.Acknowledging? ==> DeliveringTo(queue, db.acks, a.members, a.pc.i, a.pc.rest))
      && ((a.pc.Renew? || a.pc.Running?) && a.pc.op.Deliver? ==>
            DeliveringTo(queue, db.acks, a.members, a.pc.op.i, a.pc.op.rest))
      && (a.pc.Checking? && a.pc.op.Deliver? ==>
            DeliveringTo(queue, db.acks, a.members, a.pc.op.i, a.pc.op.rest[1..]))
  }

  lemma MoreAcks(queue: set<Delivery>, acks: Acks, acks': Acks, members: seq<Member>, n: nat)
    requires acks <= acks' && DoneUpTo(queue, acks, members, n)
    ensures DoneUpTo(queue, acks', members, n)
  {
    forall i | 0 <= i < n && i < |members| ensures DoneBut(queue, acks', members[i], []) {
      assert DoneBut(queue, acks, members[i], []);
    }
  }

  lemma ProgressStays(queue: set<Delivery>, db: Db, db': Db, a: Attempt)
    requires WellFormed(a) && Progressed(queue, db, a) && db.acks <= db'.acks
    requires a.token.Some? && Current(db', a.token.value) ==> Current(db, a.token.value)
    ensures Progressed(queue, db', a)
  {
    if a.token.Some? && Current(db', a.token.value) {
      if a.pc.Fetch? { MoreAcks(queue, db.acks, db'.acks, a.members, a.pc.i); }
      if a.pc.Commit? { MoreAcks(queue, db.acks, db'.acks, a.members, |a.members|); }
      if a.pc.Acknowledging? { MoreAcks(queue, db.acks, db'.acks, a.members, a.pc.i); }
      if (a.pc.Renew? || a.pc.Running? || a.pc.Checking?) && a.pc.op.Deliver? {
        MoreAcks(queue, db.acks, db'.acks, a.members, a.pc.op.i);
      }
    }
  }

  /** The list of member `i` is at its end: on to the next member, or to the commit. */
  lemma DeliverPcProgresses(queue: set<Delivery>, db: Db, a: Attempt, b: Attempt, i: nat, rest: seq<Delivery>)
    requires WellFormed(b) && b.members == a.members && DeliveringTo(queue, db.acks, a.members, i, rest)
    requires b.pc == DeliverPc(a, i, rest)
    ensures Progressed(queue, db, b)
  {
    if rest == [] {
      assert DoneUpTo(queue, db.acks, a.members, i + 1);
    }
  }

  // ---------------------------------------------------------------- own steps

  lemma CallProgresses(queue: set<Delivery>, db: Db, a: Attempt, ch: Choice)
    requires WellFormed(a) && Progressed(queue, db, a) && (a.pc.Renew? || a.pc.Running?)
    requires WellFormed(Step(db, a, ch).attempt)
    ensures Progressed(queue, db, Step(db, a, ch).attempt)
  {
    FailIsElsewhere(a, a.pc.op);
  }

  /** A failure never leads back to the deliveries. */
  lemma FailIsElsewhere(a: Attempt, op: Op)
    requires WellFormed(a) && OpOk(a, op)
    ensures var b := Fail(a, op);
            && !b.pc.Fetch? && !b.pc.Commit? && !b.pc.Acknowledging? && !b.pc.Checking? && !b.pc.Running?
            && (b.pc.Renew? ==> !b.pc.op.Deliver?)
  {
  }

  lemma CheckProgresses(queue: set<Delivery>, db: Db, a: Attempt, ch: Choice)
    requires WellFormed(a) && Progressed(queue, db, a) && a.pc.Checking?
    requires WellFormed(Step(db, a, ch).attempt)
    ensures Progressed(queue, db, Step(db, a, ch).attempt)
  {
    var b := Step(db, a, ch).attempt;
    if ch.flagged || !Current(db, a.token.value) {
      FailIsElsewhere(a, a.pc.op);
    } else if a.pc.op.Deliver? {
      DeliverPcProgresses(queue, db, a, b, a.pc.op.i, a.pc.op.rest[1..]);
    } else {
      SucceedIsElsewhere(a, a.pc.op);
    }
  }

  /** Only the reattachment leads to the deliveries from elsewhere, to the first of them. */
  lemma SucceedIsElsewhere(a: Attempt, op: Op)
    requires WellFormed(a) && a.pc == Checking(op) && !op.Deliver?
    ensures var b := Succeed(a, op);
            && (b.pc.Fetch? ==> b.pc.i == 0) && (b.pc.Commit? ==> a.members == []) && b.members == a.members
            && !b.pc.Acknowledging? && !b.pc.Checking? && !b.pc.Running? && (b.pc.Renew? ==> !b.pc.op.Deliver?)
  {
  }

  lemma FetchProgresses(queue: set<Delivery>, db: Db, a: Attempt, ch: Choice)
    requires WellFormed(a) && Progressed(queue, db, a) && a.pc.Fetch? && queue <= db.queue
    requires WellFormed(Step(db, a, ch).attempt)
    ensures Progressed(queue, Step(db, a, ch).db, Step(db, a, ch).attempt)
  {
    var e, m := Step(db, a, ch), a.members[a.pc.i];
    if Current(db, a.token.value) && ListsPending(ch.pending, PendingAfter(db, m.cursor, m.id)) {
      assert DoneBut(queue, db.acks, m, ch.pending);
      DeliverPcProgresses(queue, db, a, e.attempt, a.pc.i, ch.pending);
    }
  }

  lemma AcknowledgeProgresses(queue: set<Delivery>, db: Db, a: Attempt, ch: Choice)
    requires WellFormed(a) && Progressed(queue, db, a) && a.pc.Acknowledging?
    requires WellFormed(Step(db, a, ch).attempt)
    ensures Progressed(queue, Step(db, a, ch).db, Step(db, a, ch).attempt)
  {
    var e, i, rest := Step(db, a, ch), a.pc.i, a.pc.rest;
    var m := a.members[i];
    if Current(db, a.token.value) && (m.id, rest[0].id) !in db.acks {
      MoreAcks(queue, db.acks, e.db.acks, a.members, i);
      assert rest == [rest[0]] + rest[1..];
      assert DoneBut(queue, e.db.acks, m, rest[1..]);
    }
  }

  lemma ClaimProgresses(queue: set<Delivery>, db: Db, a: Attempt, ch: Choice)
    requires WellFormed(a) && (a.pc.Claim? || a.pc.FetchToken? || a.pc.ReadAbandoned? || a.pc.ForgetAbandoned?)
    requires WellFormed(Step(db, a, ch).attempt)
    ensures Progressed(queue, Step(db, a, ch).db, Step(db, a, ch).attempt)
  {
  }

  lemma InstallProgresses(queue: set<Delivery>, db: Db, a: Attempt, ch: Choice)
    requires WellFormed(a) && a.pc.Install? && WellFormed(Step(db, a, ch).attempt)
    ensures Progressed(queue, Step(db, a, ch).db, Step(db, a, ch).attempt)
  {
  }

  lemma LaunchProgresses(queue: set<Delivery>, db: Db, a: Attempt, ch: Choice)
    requires WellFormed(a) && (a.pc.Record? || a.pc.SetResuming? || a.pc.SetResumed?)
    requires WellFormed(Step(db, a, ch).attempt)
    ensures Progressed(queue, Step(db, a, ch).db, Step(db, a, ch).attempt)
  {
  }

  lemma OverProgresses(queue: set<Delivery>, db: Db, a: Attempt, ch: Choice)
    requires WellFormed(a) && (a.pc.Release? || a.pc.Finished? || a.pc.Failed? || a.pc.Crashed?)
    requires WellFormed(Step(db, a, ch).attempt)
    ensures Progressed(queue, Step(db, a, ch).db, Step(db, a, ch).attempt)
  {
  }

  lemma EndProgresses(queue: set<Delivery>, db: Db, a: Attempt, ch: Choice)
    requires WellFormed(a) && (a.pc.Commit? || a.pc.ReadDurable?) && WellFormed(Step(db, a, ch).attempt)
    ensures Progressed(queue, Step(db, a, ch).db, Step(db, a, ch).attempt)
  {
  }

  lemma StepProgresses(queue: set<Delivery>, db: Db, a: Attempt, ch: Choice)
    requires WellFormed(a) && Progressed(queue, db, a) && queue <= db.queue && WellFormed(Step(db, a, ch).attempt)
    ensures Progressed(queue, Step(db, a, ch).db, Step(db, a, ch).attempt)
  {
    if a.pc.Renew? || a.pc.Running? {
      CallsLeaveTheStore(db, a, ch);
      CallProgresses(queue, db, a, ch);
    } else if a.pc.Checking? {
      CallsLeaveTheStore(db, a, ch);
      CheckProgresses(queue, db, a, ch);
    } else if a.pc.Fetch? {
      FetchProgresses(queue, db, a, ch);
    } else if a.pc.Acknowledging? {
      AcknowledgeProgresses(queue, db, a, ch);
    } else if a.pc.Commit? || a.pc.ReadDurable? {
      EndProgresses(queue, db, a, ch);
    } else if a.pc.Install? {
      InstallProgresses(queue, db, a, ch);
    } else if a.pc.Record? || a.pc.SetResuming? || a.pc.SetResumed? {
      LaunchProgresses(queue, db, a, ch);
    } else if a.pc.Release? || a.pc.Finished? || a.pc.Failed? || a.pc.Crashed? {
      OverProgresses(queue, db, a, ch);
    } else {
      ClaimProgresses(queue, db, a, ch);
    }
  }

  // ---------------------------------------------------------------- the whole system

  /** Of what was queued at some moment, every call claimed since then has delivered what it should. */
  ghost predicate AllProgressed(queue: set<Delivery>, epoch: nat, s: System) {
    && queue <= s.db.queue
    && forall o | o in s.attempts ::
         && WellFormed(s.attempts[o])
         && (s.attempts[o].token.Some? && s.attempts[o].token.value.epoch > epoch
             ==> Progressed(queue, s.db, s.attempts[o]))
  }

  lemma BystanderProgresses(queue: set<Delivery>, db: Db, a: Attempt, ch: Choice, c: Attempt)
    requires WellFormed(a) && WellFormed(c) && Progressed(queue, db, c)
    requires c.token.Some? ==> c.token.value.epoch <= db.epoch
    ensures Progressed(queue, Step(db, a, ch).db, c)
  {
    var db' := Step(db, a, ch).db;
    StepRevivesNothing(db, a, ch);
    StepPending(db, a, ch);
    if c.token.Some? && Current(db', c.token.value) { CurrentBefore(db, db', c.token.value); }
    ProgressStays(queue, db, db', c);
  }

  /** A step gives a call a token only when it fetches one; before that there is nothing to promise. */
  lemma TokenIsFetched(db: Db, a: Attempt, ch: Choice)
    requires WellFormed(a)
    ensures Step(db, a, ch).attempt.token != a.token ==> Step(db, a, ch).attempt.pc.ReadAbandoned?
  {
    if a.pc.Renew? || a.pc.Running? || a.pc.Checking? { CallsKeepToken(db, a, ch); }
  }

  lemma CallsKeepToken(db: Db, a: Attempt, ch: Choice)
    requires WellFormed(a) && (a.pc.Renew? || a.pc.Running? || a.pc.Checking?)
    ensures Step(db, a, ch).attempt.token == a.token
  {
    FailIsElsewhere(a, a.pc.op);
  }

  lemma AdvanceProgresses(queue: set<Delivery>, epoch: nat, s: System, o: Owner, ch: Choice)
    requires Safe(s) && Safe(Next(s, Advance(o, ch))) && o in s.attempts && AllProgressed(queue, epoch, s)
    ensures AllProgressed(queue, epoch, Next(s, Advance(o, ch)))
  {
    var a := s.attempts[o];
    var e, s' := Step(s.db, a, ch), Next(s, Advance(o, ch));
    StepPending(s.db, a, ch);
    TokenIsFetched(s.db, a, ch);
    assert WellFormed(s'.attempts[o]);
    forall p | p in s'.attempts && s'.attempts[p].token.Some? && s'.attempts[p].token.value.epoch > epoch
      ensures Progressed(queue, s'.db, s'.attempts[p])
    {
      assert WellFormed(s'.attempts[p]);
      if p != o {
        BystanderProgresses(queue, s.db, a, ch, s.attempts[p]);
      } else if e.attempt.token == a.token {
        StepProgresses(queue, s.db, a, ch);
      }
    }
  }

  lemma NextProgresses(queue: set<Delivery>, epoch: nat, s: System, action: Action)
    requires Safe(s) && Safe(Next(s, action)) && AllProgressed(queue, epoch, s)
    ensures AllProgressed(queue, epoch, Next(s, action))
  {
    if action.Advance? {
      if action.owner in s.attempts { AdvanceProgresses(queue, epoch, s, action.owner, action.choice); }
    } else {
      OthersProgress(queue, epoch, s, action);
    }
  }

  lemma OthersProgress(queue: set<Delivery>, epoch: nat, s: System, action: Action)
    requires Safe(s) && AllProgressed(queue, epoch, s) && !action.Advance?
    ensures AllProgressed(queue, epoch, Next(s, action))
  {
    var s' := Next(s, action);
    forall o | o in s'.attempts
      ensures WellFormed(s'.attempts[o])
      ensures s'.attempts[o].token.Some? && s'.attempts[o].token.value.epoch > epoch
              ==> Progressed(queue, s'.db, s'.attempts[o])
    {
      if o in s.attempts && s'.attempts[o] == s.attempts[o] && s.attempts[o].token.Some?
          && s.attempts[o].token.value.epoch > epoch {
        ProgressStays(queue, s.db, s'.db, s.attempts[o]);
      }
    }
  }

  lemma {:induction false} RunProgresses(start: System, before: seq<Action>, more: seq<Action>)
    requires Start(start)
    ensures var s := Run(start, before); AllProgressed(s.db.queue, s.db.epoch, Run(start, before + more))
    decreases |more|
  {
    var s := Run(start, before);
    RunSafe(start, before);
    if more == [] {
      assert before + more == before;
    } else {
      var init := more[..|more| - 1];
      RunProgresses(start, before, init);
      RunFurther(start, before, more);
      RunSafe(start, before + init);
      RunSafe(start, before + more);
      NextProgresses(s.db.queue, s.db.epoch, Run(start, before + init), more[|more| - 1]);
    }
  }

  lemma CommitIsDone(queue: set<Delivery>, db: Db, a: Attempt, ch: Choice)
    requires WellFormed(a) && Progressed(queue, db, a)
    ensures var e := Step(db, a, ch);
            e.events != [] && e.events[0].Committed? ==>
              e.events[0].members == a.members && e.events[0].token == a.token.value
              && DoneUpTo(queue, e.db.acks, a.members, |a.members|)
  {
    StepSays(db, a, ch);
  }

  /**
   Nothing is forgotten. Take any moment of a run, and any resume that is claimed after it. When that resume
   commits, every delivery that was queued at that moment behind the cursor of one of its members has been
   acknowledged by that member.
   */
  lemma NothingIsForgotten(start: System, before: seq<Action>, more: seq<Action>, o: Owner, ch: Choice)
    requires Start(start)
    requires var s, s' := Run(start, before + more), Next(Run(start, before + more), Advance(o, ch));
             && |s'.log| > |s.log| && s'.log[|s.log|].Committed?
             && s'.log[|s.log|].token.epoch > Run(start, before).db.epoch
    ensures var s, s' := Run(start, before + more), Next(Run(start, before + more), Advance(o, ch));
            forall m, d | m in s'.log[|s.log|].members && d in Run(start, before).db.queue && d.cursor > m.cursor ::
              (m.id, d.id) in s'.db.acks
  {
    var base, s := Run(start, before), Run(start, before + more);
    RunProgresses(start, before, more);
    RunSafe(start, before + more);
    var a := s.attempts[o];
    StepSays(s.db, a, ch);
    CommitIsDone(base.db.queue, s.db, a, ch);
    var s' := Next(s, Advance(o, ch));
    forall m, d | m in a.members && d in base.db.queue && d.cursor > m.cursor ensures (m.id, d.id) in s'.db.acks {
      var i :| 0 <= i < |a.members| && a.members[i] == m;
      assert DoneBut(base.db.queue, s'.db.acks, a.members[i], []);
    }
  }
}
