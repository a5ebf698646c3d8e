/**
 A channel that is suspended, resumed, and suspended again: what the first resume still guarantees, and
 what a saved result is worth then.
 */
module ResumeAgain {
  import opened Options
  import opened BlueprintStore
  import opened ResumeSaga
  import opened ResumeSafety
  import opened ResumeSteps
  import opened ResumeTheorems
  import opened ResumeHistory
  import opened ResumeRuns

  // ---------------------------------------------------------------- suspended in between

  /** Action `n` of the run suspends an active channel. */
  ghost predicate SuspendsAt(start: System, actions: seq<Action>, n: nat)
    requires n < |actions|
  {
    actions[n].Suspend? && Run(start, actions[..n]).db.state == Active
  }

  /** How much of the log is written before action `n`. */
  ghost function LoggedBefore(start: System, actions: seq<Action>, n: nat): nat
    requires n <= |actions|
  {
    |Run(start, actions[..n]).log|
  }

  /** The channel is suspended after event `i` and before event `j`. */
  ghost predicate SuspendedBetween(start: System, actions: seq<Action>, i: nat, j: nat) {
    exists n :: 0 <= n < |actions| && SuspendsAt(start, actions, n) && i < LoggedBefore(start, actions, n) <= j
  }

  lemma SuspensionOfBeginning(start: System, actions: seq<Action>, init: seq<Action>, i: nat, j: nat, j': nat)
    requires actions != [] && init == actions[..|actions| - 1] && j <= j'
    requires SuspendedBetween(start, init, i, j)
    ensures SuspendedBetween(start, actions, i, j')
  {
    var n :| 0 <= n < |init| && SuspendsAt(start, init, n) && i < LoggedBefore(start, init, n) <= j;
    assert actions[..n] == init[..n];
    assert SuspendsAt(start, actions, n) && LoggedBefore(start, actions, n) == LoggedBefore(start, init, n);
  }

  lemma SuspensionAtTheEnd(start: System, actions: seq<Action>, init: seq<Action>, i: nat)
    requires actions != [] && init == actions[..|actions| - 1] && actions[|init|].Suspend?
    requires Run(start, init).db.state == Active && i < |Run(start, init).log|
    ensures SuspendedBetween(start, actions, i, |Run(start, init).log|)
  {
    assert actions[..|init|] == init;
    assert SuspendsAt(start, actions, |init|) && LoggedBefore(start, actions, |init|) == |Run(start, init).log|;
  }

  /**
   What one action says: it resumes only a resuming channel, a commit activates it, and only a suspension ends
   that.
   */
  ghost predicate Says(s: System, s': System, action: Action) {
    && |s.log| <= |s'.log| <= |s.log| + 1 && s'.log[..|s.log|] == s.log
    && (|s'.log| > |s.log| && s'.log[|s.log|].ResumeCalled? ==> s.db.state == Resuming)
    && (|s'.log| > |s.log| && s'.log[|s.log|].Committed? ==> s'.db.state == Active)
    && (s.db.state == Active && s'.db.state != Active ==> action.Suspend?)
    && (action.Suspend? ==> s'.log == s.log)
  }

  lemma StepCommits(db: Db, a: Attempt, ch: Choice)
    requires WellFormed(a)
    ensures var e := Step(db, a, ch); e.events != [] && e.events[0].Committed? ==> e.db.state == Active
  {
    StepSays(db, a, ch);
  }

  lemma NextSays(s: System, action: Action)
    ensures Says(s, Next(s, action), action)
  {
    if action.Advance? && action.owner in s.attempts && WellFormed(s.attempts[action.owner]) {
      var a, e := s.attempts[action.owner], Step(s.db, s.attempts[action.owner], action.choice);
      StepSays(s.db, a, action.choice);
      StepCommits(s.db, a, action.choice);
      if s.db.state == Active { ActiveStep(s.db, a, action.choice); }
    }
  }

  /** Since a commit the channel has stayed active, or it has been suspended; and it resumes only after that. */
  ghost predicate CommitsHold(start: System, actions: seq<Action>, s: System) {
    && (forall k | 0 <= k < |s.log| && s.log[k].Committed? ::
          s.db.state == Active || SuspendedBetween(start, actions, k, |s.log|))
    && (forall k, j | 0 <= k < j < |s.log| && s.log[k].Committed? && s.log[j].ResumeCalled? ::
          SuspendedBetween(start, actions, k, j))
  }

  lemma CommitsHoldNext(start: System, actions: seq<Action>, init: seq<Action>, s: System, s': System)
    requires actions != [] && init == actions[..|actions| - 1]
    requires s == Run(start, init) && Says(s, s', actions[|init|]) && CommitsHold(start, init, s)
    ensures CommitsHold(start, actions, s')
  {
    forall k | 0 <= k < |s'.log| && s'.log[k].Committed?
      ensures s'.db.state == Active || SuspendedBetween(start, actions, k, |s'.log|)
    {
      if k < |s.log| && s'.db.state != Active {
        assert s'.log[k] == s.log[k];
        if s.db.state == Active {
          SuspensionAtTheEnd(start, actions, init, k);
        } else {
          SuspensionOfBeginning(start, actions, init, k, |s.log|, |s'.log|);
        }
      }
    }
    forall k, j | 0 <= k < j < |s'.log| && s'.log[k].Committed? && s'.log[j].ResumeCalled?
      ensures SuspendedBetween(start, actions, k, j)
    {
      assert s'.log[k] == s.log[k];
      if j < |s.log| { assert s'.log[j] == s.log[j]; }
      SuspensionOfBeginning(start, actions, init, k, j, j);
    }
  }

  lemma RunCommitsHoldNext(start: System, actions: seq<Action>, init: seq<Action>, last: Action)
    requires actions != [] && init == actions[..|actions| - 1] && last == actions[|actions| - 1]
    requires CommitsHold(start, init, Run(start, init))
    ensures CommitsHold(start, actions, Run(start, actions))
  {
    var s := Run(start, init);
    var s' := Next(s, last);
    NextSays(s, last);
    CommitsHoldNext(start, actions, init, s, s');
  }

  lemma {:induction false} RunCommitsHold(start: System, actions: seq<Action>)
    requires Start(start)
    ensures CommitsHold(start, actions, Run(start, actions))
  {
    if actions == [] {
      assert Run(start, actions).log == [];
    } else {
      var init, last := actions[..|actions| - 1], actions[|actions| - 1];
      RunCommitsHold(start, init);
      RunCommitsHoldNext(start, actions, init, last);
    }
  }

  /**
   At most once, across suspensions. Whatever coordinators, keys and generations there are, and whatever
   crashes and takeovers: between two calls of `provider.resume` for one member, a `stopRollback` of the
   first conversation has completed, unless the channel was suspended again in between.
   */
  lemma RolledBackBetween(start: System, actions: seq<Action>, i: nat, j: nat) returns (k: nat)
    requires Start(start) && !SuspendedBetween(start, actions, i, j)
    requires var log := Run(start, actions).log;
             i < j < |log| && log[i].ResumeCalled? && log[j].ResumeCalled? && log[i].member == log[j].member
    ensures var log := Run(start, actions).log;
            && i < k < j && log[k].RolledBack?
            && log[k].member == log[i].member && log[k].conversation == log[i].conversation
  {
    RunCommitsHold(start, actions);
    k := AtMostOnce(start, actions, i, j);
    if Run(start, actions).log[k].Committed? { SuspendedEarlier(start, actions, i, k, j); }
  }

  lemma SuspendedEarlier(start: System, actions: seq<Action>, i: nat, k: nat, j: nat)
    requires i <= k && SuspendedBetween(start, actions, k, j)
    ensures SuspendedBetween(start, actions, i, j)
  {
    var n :| 0 <= n < |actions| && SuspendsAt(start, actions, n) && k < LoggedBefore(start, actions, n) <= j;
    assert SuspendsAt(start, actions, n) && i < LoggedBefore(start, actions, n) <= j;
  }

  // ---------------------------------------------------------------- the saved result

  /** The result that was last committed under a key. */
  function LastResult(log: seq<Event>, key: Key): Option<seq<Outcome>> {
    if log == [] then None
    else
      var last := log[|log| - 1];
      if last.Committed? && last.token.key == key then Some(last.result) else LastResult(log[..|log| - 1], key)
  }

  ghost predicate ResultsKept(db: Db, log: seq<Event>) {
    forall key: Key | LastResult(log, key).Some? :: key in db.results && db.results[key] == LastResult(log, key).value
  }

  /** Only a commit writes a result, its own under its own key. */
  ghost predicate WritesResults(db: Db, e: Effect) {
    if e.events != [] && e.events[0].Committed? then
      e.db.results == db.results[e.events[0].token.key := e.events[0].result]
    else e.db.results == db.results
  }

  lemma StepResults(db: Db, a: Attempt, ch: Choice)
    requires WellFormed(a)
    ensures |Step(db, a, ch).events| <= 1 && WritesResults(db, Step(db, a, ch))
  {
    StepSays(db, a, ch);
    if a.pc.Renew? || a.pc.Running? || a.pc.Checking? {
      CallsLeaveTheStore(db, a, ch);
    } else if a.pc.Install? {
      InstallLeavesRows(db, a, |a.launched|);
    } else if a.pc.Commit? || a.pc.Release? || a.pc.ForgetAbandoned? {
      TransactionResults(db, a, ch);
    } else {
      OtherResults(db, a, ch);
    }
  }

  lemma TransactionResults(db: Db, a: Attempt, ch: Choice)
    requires WellFormed(a) && (a.pc.Commit? || a.pc.Release? || a.pc.ForgetAbandoned?)
    ensures WritesResults(db, Step(db, a, ch))
  {
  }

  lemma OtherResults(db: Db, a: Attempt, ch: Choice)
    requires WellFormed(a) && !a.pc.Renew? && !a.pc.Running? && !a.pc.Checking? && !a.pc.Install?
    requires !a.pc.Commit? && !a.pc.Release? && !a.pc.ForgetAbandoned?
    ensures Step(db, a, ch).db.results == db.results
    ensures Step(db, a, ch).events != [] ==> !Step(db, a, ch).events[0].Committed?
  {
  }

  lemma LastResultNext(log: seq<Event>, events: seq<Event>, key: Key)
    requires |events| <= 1
    ensures LastResult(log + events, key) ==
            if events != [] && events[0].Committed? && events[0].token.key == key then Some(events[0].result)
            else LastResult(log, key)
  {
    if events == [] {
      assert log + events == log;
    } else {
      assert (log + events)[..|log|] == log;
    }
  }

  lemma NextResults(s: System, action: Action)
    requires ResultsKept(s.db, s.log)
    ensures ResultsKept(Next(s, action).db, Next(s, action).log)
  {
    if action.Advance? && action.owner in s.attempts && WellFormed(s.attempts[action.owner]) {
      var e := Step(s.db, s.attempts[action.owner], action.choice);
      StepResults(s.db, s.attempts[action.owner], action.choice);
      forall key: Key | LastResult(s.log + e.events, key).Some?
        ensures key in e.db.results && e.db.results[key] == LastResult(s.log + e.events, key).value
      {
        LastResultNext(s.log, e.events, key);
      }
    }
  }

  lemma {:induction false} RunResults(start: System, actions: seq<Action>)
    requires Start(start)
    ensures ResultsKept(Run(start, actions).db, Run(start, actions).log)
  {
    if actions != [] {
      RunResults(start, actions[..|actions| - 1]);
      NextResults(Run(start, actions[..|actions| - 1]), actions[|actions| - 1]);
    }
  }

  lemma {:induction false} LastCommit(log: seq<Event>, key: Key) returns (k: nat)
    requires LastResult(log, key).Some?
    ensures k < |log| && log[k].Committed? && log[k].token.key == key && LastResult(log, key) == Some(log[k].result)
  {
    k := |log| - 1;
    if !(log[k].Committed? && log[k].token.key == key) { k := LastCommit(log[..k], key); }
  }

  /**
   What a saved result is worth, exactly. In every run in which a resume has committed under a key, a
   later call with that key is given the result of the last such commit if and only if the store does not
   let it claim the channel. And the store only lets it after the channel has been suspended again.
   */
  lemma AnsweredIffNotClaimable(start: System, actions: seq<Action>, o: Owner, ch: Choice) returns (k: nat)
    requires Start(start)
    requires var s := Run(start, actions);
             && o in s.attempts && s.attempts[o].pc.Claim?
             && LastResult(s.log, s.attempts[o].key).Some?
    ensures var s, s' := Run(start, actions), Run(start, actions + [Advance(o, ch)]);
            var a := s.attempts[o];
            && k < |s.log| && s.log[k].Committed? && s.log[k].token.key == a.key
            && LastResult(s.log, a.key) == Some(s.log[k].result)
            && o in s'.attempts
            && (s'.attempts[o].pc == Finished(s.log[k].result) <==> !Claimable(s.db, a.key, a.generation))
            && (Claimable(s.db, a.key, a.generation) ==> SuspendedBetween(start, actions, k, |s.log|))
  {
    var s := Run(start, actions);
    RunSafe(start, actions);
    RunResults(start, actions);
    RunCommitsHold(start, actions);
    k := LastCommit(s.log, s.attempts[o].key);
    assert (actions + [Advance(o, ch)])[..|actions|] == actions;
  }

  // ---------------------------------------------------------------- a run that resumes again

  /** Nothing that was not pending becomes pending unless it is queued. */
  lemma StepPending(db: Db, a: Attempt, ch: Choice)
    requires WellFormed(a)
    ensures Step(db, a, ch).db.queue == db.queue && db.acks <= Step(db, a, ch).db.acks
  {
    if a.pc.Renew? || a.pc.Running? || a.pc.Checking? {
      CallsLeaveTheStore(db, a, ch);
    } else if a.pc.Install? {
      InstallLeavesRows(db, a, |a.launched|);
    } else if a.pc.Commit? || a.pc.Release? || a.pc.ForgetAbandoned? {
      TransactionPending(db, a, ch);
    } else {
      OtherPending(db, a, ch);
    }
  }

  lemma TransactionPending(db: Db, a: Attempt, ch: Choice)
    requires WellFormed(a) && (a.pc.Commit? || a.pc.Release? || a.pc.ForgetAbandoned?)
    ensures Step(db, a, ch).db.queue == db.queue && db.acks == Step(db, a, ch).db.acks
  {
  }

  lemma OtherPending(db: Db, a: Attempt, ch: Choice)
    requires WellFormed(a) && !a.pc.Renew? && !a.pc.Running? && !a.pc.Checking? && !a.pc.Install?
    requires !a.pc.Commit? && !a.pc.Release? && !a.pc.ForgetAbandoned?
    ensures Step(db, a, ch).db.queue == db.queue && db.acks <= Step(db, a, ch).db.acks
  {
  }

  lemma {:induction false} PendingShrinks(start: System, actions: seq<Action>)
    requires forall i | 0 <= i < |actions| :: !actions[i].Enqueue?
    ensures Run(start, actions).db.queue == start.db.queue && start.db.acks <= Run(start, actions).db.acks
  {
    if actions != [] {
      var init, last := actions[..|actions| - 1], actions[|actions| - 1];
      PendingShrinks(start, init);
      var s := Run(start, init);
      if last.Advance? && last.owner in s.attempts && WellFormed(s.attempts[last.owner]) {
        StepPending(s.db, s.attempts[last.owner], last.choice);
      }
    }
  }

  /** The one member of the blueprint is launched and resumed; the coordinator is about to install it. */
  lemma ResumesOnce(start: System, before: seq<Action>, m: Member) returns (actions: seq<Action>, t: Token)
    requires CleanActions(before, [m]) && Ready(Run(start, before)) && AsksProvider(m)
    ensures CleanActions(actions, [m])
    ensures var s, s' := Run(start, before), Run(start, actions);
            && CleanAt(s', [m], 0, t, [Runtime("", "")], Install)
            && s'.log == s.log + MemberLog(t, m)
  {
    actions, t := CleanStart(start, before, 0, [m]);
    actions := CleanReconcile(start, actions, [m], 0, t, 0);
    actions := CleanMember(start, actions, [m], 0, t, []);
  }

  predicate CleanInstalled(s: System, m: Member, t: Token, pc: Pc) {
    CleanAt(s, [m], 0, t, [Runtime("", "")], pc) && PendingAfter(s.db, m.cursor, m.id) == {}
  }

  /** Installing and reattaching say nothing and leave the deliveries alone. */
  predicate Reattaches(pc: Pc, pc': Pc) {
    || (pc.Install? && pc' == Renew(Reattach))
    || (pc == Renew(Reattach) && pc' == Running(Reattach))
    || (pc == Running(Reattach) && pc' == Checking(Reattach))
    || (pc == Checking(Reattach) && pc' == Fetch(0))
  }

  lemma ReattachIsClean(s: System, m: Member, t: Token, pc: Pc, pc': Pc)
    requires CleanInstalled(s, m, t, pc) && Reattaches(pc, pc')
    ensures var s' := Next(s, Advance(COORDINATOR, Well(Runtime("", ""))));
              CleanInstalled(s', m, t, pc') && s'.log == s.log
  {
    var s' := Next(s, Advance(COORDINATOR, Well(Runtime("", ""))));
    var a := s.attempts[COORDINATOR];
    if pc.Install? { InstallLeavesRows(s.db, a, 1); }
    assert s.log + [] == s.log;
    assert s'.attempts[COORDINATOR] == a.(pc := pc');
  }

  lemma FetchIsClean(s: System, m: Member, t: Token)
    requires CleanInstalled(s, m, t, Fetch(0))
    ensures var s' := Next(s, Advance(COORDINATOR, Well(Runtime("", ""))));
            CleanInstalled(s', m, t, Commit) && s'.log == s.log + [Fetched(t, m.id, {})]
  {
    assert ListsPending([], {});
  }

  lemma CommitIsClean(s: System, m: Member, t: Token)
    requires Safe(s) && CleanInstalled(s, m, t, Commit)
    ensures var s' := Next(s, Advance(COORDINATOR, Well(Runtime("", ""))));
            && Ready(s'.(db := s'.db.(state := Suspended))) && s'.db.state == Active
            && s'.log == s.log + [Committed(t, [m], [Resumed(m.id, Runtime("", ""), 0)])]
            && KEY in s'.db.results
  {
    var a := s.attempts[COORDINATOR];
    assert Owns(s.db, a) && a.generation == s.db.generation;
    assert Cleared(s.db, 0).launches == map[];
    assert Outcomes(a) == [Resumed(m.id, Runtime("", ""), 0)];
  }

  /** The member is installed, nothing is pending for it, and the resume commits. */
  lemma CommitsCleanly(start: System, before: seq<Action>, m: Member, t: Token) returns (actions: seq<Action>)
    requires Start(start) && CleanActions(before, [m]) && CleanInstalled(Run(start, before), m, t, Install)
    ensures CleanActions(actions, [m])
    ensures var s, s' := Run(start, before), Run(start, actions);
            && Ready(s'.(db := s'.db.(state := Suspended))) && s'.db.state == Active
            && s'.log == s.log + [Fetched(t, m.id, {})] + [Committed(t, [m], [Resumed(m.id, Runtime("", ""), 0)])]
            && KEY in s'.db.results
  {
    var well := Well(Runtime("", ""));
    ReattachIsClean(Run(start, before), m, t, Install, Renew(Reattach));
    actions := CleanStep(start, before, [m], well);
    ReattachIsClean(Run(start, actions), m, t, Renew(Reattach), Running(Reattach));
    actions := CleanStep(start, actions, [m], well);
    ReattachIsClean(Run(start, actions), m, t, Running(Reattach), Checking(Reattach));
    actions := CleanStep(start, actions, [m], well);
    ReattachIsClean(Run(start, actions), m, t, Checking(Reattach), Fetch(0));
    actions := CleanStep(start, actions, [m], well);
    FetchIsClean(Run(start, actions), m, t);
    actions := CleanStep(start, actions, [m], well);
    RunSafe(start, actions);
    CommitIsClean(Run(start, actions), m, t);
    actions := CleanStep(start, actions, [m], well);
  }

  /** A whole resume of one member, from the claim to the commit. */
  lemma ResumesAndCommits(start: System, m: Member) returns (actions: seq<Action>, t: Token)
    requires Start(start) && AsksProvider(m) && PendingAfter(start.db, m.cursor, m.id) == {}
    ensures CleanActions(actions, [m])
    ensures var s := Run(start, actions);
            && Ready(s.(db := s.db.(state := Suspended))) && s.db.state == Active && KEY in s.db.results && t.key == KEY
            && s.log == MemberLog(t, m) + [Fetched(t, m.id, {})]
                        + [Committed(t, [m], [Resumed(m.id, Runtime("", ""), 0)])]
  {
    actions, t := ResumesOnce(start, [], m);
    PendingShrinks(start, actions);
    assert [] + MemberLog(t, m) == MemberLog(t, m);
    actions := CommitsCleanly(start, actions, m, t);
  }

  /** The log of a committed resume, followed by a launch and a call for the same member. */
  lemma ResumedTwice(log: seq<Event>, t: Token, u: Token, m: Member)
    requires AsksProvider(m) && t.key == KEY && u.key == KEY
    requires log == MemberLog(t, m) + [Fetched(t, m.id, {})] + [Committed(t, [m], [Resumed(m.id, Runtime("", ""), 0)])]
    ensures var all := log + MemberLog(u, m);
            && |all| == 6 && all[1] == ResumeCalled(t, m.id, m.provider.value)
            && all[3].Committed? && all[5] == ResumeCalled(u, m.id, m.provider.value)
            && (forall k | 0 <= k < |all| :: !all[k].RolledBack?) && LastResult(all, KEY).Some?
  {
    var all := log + MemberLog(u, m);
    LastResultNext(log, [all[4]], KEY);
    LastResultNext(log + [all[4]], [all[5]], KEY);
    assert all == log + [all[4]] + [all[5]];
    LastResultNext(log[..3], [log[3]], KEY);
    assert log == log[..3] + [log[3]];
  }

  /**
   The converse: a run in which one resume commits, the channel is suspended, and a call with the very same
   key resumes the same conversation again. Nothing is rolled back in between, and the result that was
   saved under that key is not returned.
   */
  lemma ResumedAgainUnderItsKey(start: System, m: Member) returns (actions: seq<Action>, i: nat, j: nat)
    requires Start(start) && AsksProvider(m) && PendingAfter(start.db, m.cursor, m.id) == {}
    ensures UsesOnly(actions, [m])
    ensures var s := Run(start, actions);
            && i < j < |s.log| && s.log[i].ResumeCalled? && s.log[j].ResumeCalled?
            && s.log[i].member == s.log[j].member == m.id && s.log[i].conversation == s.log[j].conversation
            && s.log[i].token.key == s.log[j].token.key == KEY && LastResult(s.log, KEY).Some?
            && (forall k | 0 <= k < |s.log| :: !s.log[k].RolledBack?)
            && SuspendedBetween(start, actions, i, j)
  {
    var t, u;
    actions, t := ResumesAndCommits(start, m);
    var committed := actions;
    var s := Run(start, committed);
    actions := Extend(start, committed, Suspend, [m]);
    actions, u := ResumesOnce(start, actions, m);
    i, j := 1, 5;
    ResumedTwice(s.log, t, u, m);
    RunCommitsHold(start, actions);
    SuspendedEarlier(start, actions, 1, 3, 5);
  }
}
