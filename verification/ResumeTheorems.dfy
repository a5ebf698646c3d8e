/** What resuming a channel promises, in every run of any number of coordinators. */
module ResumeTheorems {
  import opened Options
  import opened BlueprintStore
  import opened ResumeSaga
  import opened ResumeSafety
  import opened ResumeSteps

  // ---------------------------------------------------------------- the invariant holds in every run

  lemma ExternalSafe(s: System, db': Db)
    requires Safe(s) && (SameRows(s.db, db') || (s.db.state == Active && db' == s.db.(state := Suspended)))
    ensures Safe(s.(db := db'))
  {
    forall o | o in s.attempts ensures AttemptOk(db', s.attempts[o], s.log) {
      if SameRows(s.db, db') {
        AttemptOkSame(s.db, db', s.attempts[o], s.log, s.log);
      } else {
        BystanderOk(s.db, db', s.attempts[o], s.log, s.log);
      }
    }
  }

  lemma NextSafe(s: System, action: Action)
    requires Safe(s)
    ensures Safe(Next(s, action))
  {
    match action
    case Suspend => if s.db.state == Active { ExternalSafe(s, s.db.(state := Suspended)); }
    case Enqueue(d) => ExternalSafe(s, s.db.(queue := s.db.queue + {d}));
    case Expire => ExternalSafe(s, s.db.(live := false));
    case Begin(owner, key, generation, members) => BeginSafe(s, owner, key, generation, members);
    case Advance(owner, ch) =>
      if owner in s.attempts && WellFormed(s.attempts[owner]) {
        AnyStepSafe(s, owner, ch);
      }
    case Crash(owner) => if owner in s.attempts { CrashSafe(s, owner); }
  }

  lemma BeginSafe(s: System, owner: Owner, key: Key, generation: nat, members: seq<Member>)
    requires Safe(s)
    ensures Safe(Next(s, Begin(owner, key, generation, members)))
  {
    if MayBegin(s, owner) && Distinct(members) {
      NewAttemptOk(s.db, owner, key, generation, members, s.log);
    }
  }

  lemma NewAttemptOk(db: Db, owner: Owner, key: Key, generation: nat, members: seq<Member>, log: seq<Event>)
    requires Distinct(members)
    ensures var a := NewAttempt(owner, key, generation, members);
            AttemptOk(db, a, log) && forall i | 0 <= i < |a.members| :: !Armed(a, i)
  {
  }

  lemma CrashSafe(s: System, owner: Owner)
    requires Safe(s) && owner in s.attempts
    ensures Safe(Next(s, Crash(owner)))
  {
    var e := Stay(s.db, s.attempts[owner].(pc := Crashed));
    QuietStep(s, owner, e);
    assert s.log + [] == s.log;
  }

  lemma {:induction false} RunSafe(s: System, actions: seq<Action>)
    requires Start(s)
    ensures Safe(Run(s, actions))
  {
    if actions != [] {
      RunSafe(s, actions[..|actions| - 1]);
      NextSafe(Run(s, actions[..|actions| - 1]), actions[|actions| - 1]);
    }
  }

  // ---------------------------------------------------------------- whose resume is standing

  /** The token of the attempt whose resume of `m` is standing. */
  function Holder(log: seq<Event>, m: MemberId): Option<Token> {
    if log == [] then None
    else
      var last := log[|log| - 1];
      if last.ResumeCalled? && last.member == m then Some(last.token)
      else if last.RolledBack? && last.member == m then None
      else if last.Committed? then None
      else Holder(log[..|log| - 1], m)
  }

  lemma HolderNext(log: seq<Event>, e: Event, m: MemberId)
    ensures Holder(log + [e], m) ==
            if e.ResumeCalled? && e.member == m then Some(e.token)
            else if (e.RolledBack? && e.member == m) || e.Committed? then None
            else Holder(log, m)
  {
    assert (log + [e])[..|log|] == log;
  }

  lemma {:induction false} HeldIfStanding(log: seq<Event>, m: MemberId)
    ensures Holder(log, m).Some? <==> Standing(log, m).Some?
  {
    if log != [] { HeldIfStanding(log[..|log| - 1], m); }
  }

  /** Whatever is standing was resumed under this token. */
  ghost predicate AllHeldBy(log: seq<Event>, t: Token) {
    forall m: MemberId | Holder(log, m).Some? :: Holder(log, m) == Some(t)
  }

  /** The owner of the store that is past its recovery holds everything that is standing. */
  ghost predicate OwnerHolds(db: Db, a: Attempt, log: seq<Event>) {
    Owns(db, a) && a.launched != [] ==> AllHeldBy(log, a.token.value)
  }

  /** A commit only ever settles what its own attempt resumed. */
  ghost predicate CommitsItsOwn(before: seq<Event>, e: Event) {
    e.Committed? ==> AllHeldBy(before, e.token)
  }

  ghost predicate OwnCommits(log: seq<Event>) {
    forall i | 0 <= i < |log| :: CommitsItsOwn(log[..i], log[i])
  }

  ghost predicate Holding(s: System) {
    OwnCommits(s.log) && forall o | o in s.attempts :: OwnerHolds(s.db, s.attempts[o], s.log)
  }

  lemma OwnCommitsNext(log: seq<Event>, e: Event)
    requires OwnCommits(log) && CommitsItsOwn(log, e)
    ensures OwnCommits(log + [e])
  {
    forall i | 0 <= i < |log + [e]| ensures CommitsItsOwn((log + [e])[..i], (log + [e])[i]) {
      if i < |log| { assert (log + [e])[..i] == log[..i]; } else { assert (log + [e])[..i] == log; }
    }
  }

  lemma NothingHeld(db: Db, log: seq<Event>, t: Token)
    requires StandingOk(db, log) && db.launches == map[]
    ensures AllHeldBy(log, t)
  {
    forall m: MemberId ensures Holder(log, m) == None { HeldIfStanding(log, m); }
  }

  /** An event that resumes nothing can only let go of something. */
  lemma HeldStays(log: seq<Event>, e: Event, t: Token)
    requires AllHeldBy(log, t) && (e.ResumeCalled? ==> e.token == t)
    ensures AllHeldBy(log + [e], t)
  {
    forall m: MemberId | Holder(log + [e], m).Some? ensures Holder(log + [e], m) == Some(t) { HolderNext(log, e, m); }
  }

  /** Only the current owner resumes or commits anything. */
  lemma StepSays(db: Db, a: Attempt, ch: Choice)
    requires WellFormed(a)
    ensures var e := Step(db, a, ch);
            && |e.events| <= 1
            && (e.events != [] && e.events[0].ResumeCalled? ==>
                  a.launched != [] && a.token == Some(e.events[0].token) && Current(db, e.events[0].token))
            && (e.events != [] && e.events[0].Committed? ==>
                  a.pc.Commit? && a.token == Some(e.events[0].token) && Current(db, e.events[0].token))
  {
    if a.pc.Renew? || a.pc.Running? || a.pc.Checking? { CallSays(db, a, ch); }
  }

  lemma CallSays(db: Db, a: Attempt, ch: Choice)
    requires WellFormed(a) && (a.pc.Renew? || a.pc.Running? || a.pc.Checking?)
    ensures var e := Step(db, a, ch);
            && |e.events| <= 1
            && (e.events != [] ==> !e.events[0].Committed?)
            && (e.events != [] && e.events[0].ResumeCalled? ==>
                  a.launched != [] && a.token == Some(e.events[0].token) && Current(db, e.events[0].token))
  {
  }

  /** The first launch is kept at its check. */
  lemma StepLaunches(db: Db, a: Attempt, ch: Choice)
    requires WellFormed(a) && Step(db, a, ch).attempt.launched != []
    ensures a.launched != [] || a.pc == Checking(Launch(0))
  {
    if a.pc.Renew? || a.pc.Running? || a.pc.Checking? { CallLaunches(db, a, ch); }
  }

  lemma CallLaunches(db: Db, a: Attempt, ch: Choice)
    requires WellFormed(a) && (a.pc.Renew? || a.pc.Running? || a.pc.Checking?)
    ensures var b := Step(db, a, ch).attempt; b.launched == a.launched || a.pc == Checking(Launch(|a.launched|))
    ensures SameIdentity(a, Step(db, a, ch).attempt)
  {
    FailWellFormed(a, a.pc.op);
  }

  /** A step takes the store over for its own attempt or for nobody. */
  lemma StepOwns(db: Db, a: Attempt, ch: Choice, b: Attempt)
    requires WellFormed(a) && b.owner != a.owner && Owns(Step(db, a, ch).db, b)
    ensures Owns(db, b)
  {
    if a.pc.Renew? || a.pc.Running? || a.pc.Checking? {
    } else if a.pc.Install? {
      InstallLeavesRows(db, a, |a.launched|);
    }
  }

  lemma StepKeepsOwning(db: Db, a: Attempt, ch: Choice)
    requires WellFormed(a) && !a.pc.Claim? && !a.pc.FetchToken?
    requires Owns(Step(db, a, ch).db, Step(db, a, ch).attempt)
    ensures Owns(db, a) && Step(db, a, ch).attempt.token == a.token
  {
    if a.pc.Renew? || a.pc.Running? || a.pc.Checking? {
      CallLaunches(db, a, ch);
    } else {
      WriteKeepsOwning(db, a, ch);
    }
  }

  lemma WriteKeepsOwning(db: Db, a: Attempt, ch: Choice)
    requires WellFormed(a) && !a.pc.Claim? && !a.pc.FetchToken? && !a.pc.Renew? && !a.pc.Running? && !a.pc.Checking?
    requires Owns(Step(db, a, ch).db, Step(db, a, ch).attempt)
    ensures Owns(db, a) && Step(db, a, ch).attempt.token == a.token
  {
    if a.pc.Install? {
      InstallLeavesRows(db, a, |a.launched|);
    } else if a.pc.ForgetAbandoned? || a.pc.Commit? || a.pc.Release? {
      TransactionKeepsOwning(db, a, ch);
    }
  }

  lemma TransactionKeepsOwning(db: Db, a: Attempt, ch: Choice)
    requires WellFormed(a) && (a.pc.ForgetAbandoned? || a.pc.Commit? || a.pc.Release?)
    requires Owns(Step(db, a, ch).db, Step(db, a, ch).attempt)
    ensures Owns(db, a) && Step(db, a, ch).attempt.token == a.token
  {
  }

  /** Past recovery the attempt holds it all; before its first launch nothing is standing. */
  lemma OwnerHoldsBefore(db: Db, a: Attempt, log: seq<Event>)
    requires AttemptOk(db, a, log) && StandingOk(db, log) && OwnerHolds(db, a, log) && Owns(db, a)
    requires a.launched != [] || a.pc.Commit? || a.pc == Checking(Launch(0))
    ensures AllHeldBy(log, a.token.value)
  {
    if a.launched == [] { NothingHeld(db, log, a.token.value); }
  }

  lemma AdvanceHolds(s: System, o: Owner, ch: Choice)
    requires Safe(s) && Holding(s) && o in s.attempts && WellFormed(s.attempts[o])
    ensures Holding(Next(s, Advance(o, ch)))
  {
    var a := s.attempts[o];
    var e := Step(s.db, a, ch);
    var s' := Next(s, Advance(o, ch));
    StepSays(s.db, a, ch);
    if e.events == [] {
      assert s'.log == s.log;
    } else {
      assert e.events == [e.events[0]];
      if e.events[0].Committed? { OwnerHoldsBefore(s.db, a, s.log); }
      OwnCommitsNext(s.log, e.events[0]);
    }
    forall p | p in s'.attempts ensures OwnerHolds(s'.db, s'.attempts[p], s'.log) {
      if p == o { AdvancerHolds(s, o, ch); } else { BystanderHolds(s, o, ch, p); }
    }
  }

  lemma AdvancerHolds(s: System, o: Owner, ch: Choice)
    requires Safe(s) && Holding(s) && o in s.attempts && WellFormed(s.attempts[o])
    ensures var e := Step(s.db, s.attempts[o], ch); OwnerHolds(e.db, e.attempt, s.log + e.events)
  {
    var a := s.attempts[o];
    var e := Step(s.db, a, ch);
    StepSays(s.db, a, ch);
    if Owns(e.db, e.attempt) && e.attempt.launched != [] {
      StepLaunches(s.db, a, ch);
      StepKeepsOwning(s.db, a, ch);
      OwnerHoldsBefore(s.db, a, s.log);
      if e.events == [] {
        assert s.log + e.events == s.log;
      } else {
        assert e.events == [e.events[0]];
        HeldStays(s.log, e.events[0], a.token.value);
      }
    }
  }

  lemma BystanderHolds(s: System, o: Owner, ch: Choice, p: Owner)
    requires Safe(s) && Holding(s) && o in s.attempts && WellFormed(s.attempts[o]) && p in s.attempts && p != o
    ensures var e := Step(s.db, s.attempts[o], ch); OwnerHolds(e.db, s.attempts[p], s.log + e.events)
  {
    var a, b := s.attempts[o], s.attempts[p];
    var e := Step(s.db, a, ch);
    StepSays(s.db, a, ch);
    if Owns(e.db, b) && b.launched != [] {
      StepOwns(s.db, a, ch, b);
      if e.events == [] {
        assert s.log + e.events == s.log;
      } else {
        assert e.events == [e.events[0]];
        HeldStays(s.log, e.events[0], b.token.value);
      }
    }
  }

  lemma NextHolds(s: System, action: Action)
    requires Safe(s) && Holding(s)
    ensures Holding(Next(s, action))
  {
    if action.Advance? && action.owner in s.attempts && WellFormed(s.attempts[action.owner]) {
      AdvanceHolds(s, action.owner, action.choice);
    } else if !action.Advance? {
      QuietHolds(s, action);
    }
  }

  /** What the world does, a new call and a crash say nothing and make nobody an owner. */
  lemma QuietHolds(s: System, action: Action)
    requires Safe(s) && Holding(s) && !action.Advance?
    ensures Holding(Next(s, action))
  {
    var s' := Next(s, action);
    forall p | p in s'.attempts ensures OwnerHolds(s'.db, s'.attempts[p], s'.log) {
      if p in s.attempts { assert OwnerHolds(s.db, s.attempts[p], s.log); }
    }
  }

  lemma {:induction false} RunHolds(s: System, actions: seq<Action>)
    requires Start(s)
    ensures Safe(Run(s, actions)) && Holding(Run(s, actions))
  {
    RunSafe(s, actions);
    if actions != [] {
      RunHolds(s, actions[..|actions| - 1]);
      NextHolds(Run(s, actions[..|actions| - 1]), actions[|actions| - 1]);
    }
  }

  // ---------------------------------------------------------------- at most once

  /** Event `e` settles what `resumed` started: it rolls back that conversation, or that very attempt commits. */
  predicate Settles(resumed: Event, e: Event)
    requires resumed.ResumeCalled?
  {
    || (e.Committed? && e.token == resumed.token)
    || (e.RolledBack? && e.member == resumed.member && e.conversation == resumed.conversation)
  }

  /** Unless something settles it, a resumed conversation is still standing, under the token that resumed it. */
  lemma {:induction false} StillStanding(log: seq<Event>, i: nat, j: nat)
    requires LogSafe(log) && OwnCommits(log) && i < j <= |log| && log[i].ResumeCalled?
    requires forall k | i < k < j :: !Settles(log[i], log[k])
    ensures Standing(log[..j], log[i].member) == Some(log[i].conversation)
    ensures Holder(log[..j], log[i].member) == Some(log[i].token)
    decreases j
  {
    var m := log[i].member;
    var before, last := log[..j - 1], log[j - 1];
    assert log[..j] == before + [last];
    StandingNext(before, last, m);
    HolderNext(before, last, m);
    if i < j - 1 {
      StillStanding(log, i, j - 1);
      assert EventSafe(before, last) && CommitsItsOwn(before, last);
    }
  }

  /**
   At most once. Across any number of coordinators, keys and generations, with a crash, an expiry or
   a takeover after any call: between two calls of `provider.resume` for one member, a `stopRollback`
   of the first conversation returned under a live lease, or the first attempt itself committed.
   */
  lemma AtMostOnce(start: System, actions: seq<Action>, i: nat, j: nat) returns (k: nat)
    requires Start(start)
    requires var log := Run(start, actions).log;
             i < j < |log| && log[i].ResumeCalled? && log[j].ResumeCalled? && log[i].member == log[j].member
    ensures var log := Run(start, actions).log; i < k < j && Settles(log[i], log[k])
  {
    RunHolds(start, actions);
    var log := Run(start, actions).log;
    assert EventSafe(log[..j], log[j]);
    if forall k | i < k < j :: !Settles(log[i], log[k]) {
      StillStanding(log, i, j);
      assert false;
    }
    k :| i < k < j && Settles(log[i], log[k]);
  }
}
