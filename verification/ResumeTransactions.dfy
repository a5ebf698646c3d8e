/**
 The durable writes of `resume`, made call by call against the store: every transaction is proved to
 be the one atomic step that the runs of the saga are built from.
 */
module ResumeTransactions {
  import opened Options
  import opened BlueprintStore
  import opened ResumeSaga
  import ResumeSteps

  class DurableChannelLifecycle {
    const store: Store

    constructor (store: Store)
      ensures this.store == store
    {
      this.store := store;
    }

    /** The claim; if it fails, whatever a finished call has saved under this key. */
    method Claim(a: Attempt) returns (b: Attempt)
      modifies store
      ensures Effect(store.db, b, []) == ClaimStep(old(store.db), a)
    {
      var ok := store.ClaimResume(a.key, a.generation, a.owner);
      if ok { return a.(pc := Pc.FetchToken); }
      var completed := store.ResumeResult(a.key);
      b := a.(pc := if completed.Some? then Finished(completed.value) else Failed);
    }

    method FetchToken(a: Attempt) returns (b: Attempt)
      ensures Effect(store.db, b, []) == FetchTokenStep(store.db, a)
    {
      var token := store.CurrentResumeFenceToken(a.key, a.owner);
      b := if token.Some? then a.(token := token, pc := ReadAbandoned) else a.(pc := Failed);
    }

    /**
     Forgets the abandoned launches: both writes or, thrown out by the first stale one, neither. The
     lease lasts for the first `ch.calls` calls.
     */
    method ForgetAbandoned(a: Attempt, ch: Choice) returns (b: Attempt)
      requires a.token.Some?
      modifies store
      ensures Effect(store.db, b, []) == ForgetAbandonedStep(old(store.db), a, ch)
    {
      var before, t := store.db, a.token.value;
      if ch.calls == 0 { store.LeaseRunsOut(t); }
      var ok := store.RollbackResumedMembers(a.generation, t);
      if ok {
        if ch.calls == 1 { store.LeaseRunsOut(t); }
        ok := store.ClearResumeLaunches(a.generation, t);
      }
      if !ok {
        store.Rollback(before);
        return a.(pc := Failed);
      }
      b := a.(pc := ReconcilePc(a, 0));
    }

    method Record(a: Attempt, i: nat) returns (b: Attempt)
      requires a.token.Some? && i + 1 == |a.launched| <= |a.members|
      modifies store
      ensures Effect(store.db, b, []) == RecordStep(old(store.db), a, i)
    {
      var m := a.members[i];
      var ok := store.RecordResumeLaunch(m.id, a.generation, a.launched[i], m.provider, a.token.value);
      b := a.(pc := if !ok then ReadDurable else if m.provider.Some? then SetResuming(i) else LaunchPc(a, i + 1));
    }

    /** Either phase of the provider's part: before it is asked, and after it has answered. */
    method SetPhase(a: Attempt, i: nat) returns (b: Attempt)
      requires a.token.Some? && i + 1 == |a.launched| <= |a.members| && a.members[i].provider.Some?
      requires a.pc == SetResuming(i) || a.pc == SetResumed(i)
      modifies store
      ensures Effect(store.db, b, []) == if a.pc.SetResuming? then SetResumingStep(old(store.db), a, i)
                else SetResumedStep(old(store.db), a, i)
    {
      var m := a.members[i];
      var phase := if a.pc.SetResuming? then ProviderResuming else ProviderResumed;
      var ok := store.SetResumeProviderPhase(m.id, a.generation, phase, a.token.value);
      if !ok { return a.(pc := ReadDurable); }
      if a.pc.SetResumed? { return a.(pc := LaunchPc(a, i + 1)); }
      b := a.(pc := if AsksProvider(m) then Renew(ProviderResume(i)) else SetResumed(i));
    }

    /** Installs every launched member in one transaction, one fenced call after the other. */
    method InstallMembers(a: Attempt, ch: Choice) returns (b: Attempt)
      requires a.token.Some? && |a.launched| == |a.members|
      modifies store
      ensures Effect(store.db, b, []) == InstallStep(old(store.db), a, ch)
    {
      var before, t := store.db, a.token.value;
      var i := 0;
      while i < |a.launched|
        invariant i <= |a.launched| && (i > 0 ==> i <= ch.calls && Current(before, t))
        invariant store.db == InstallAll(before, a, i)
      {
        ResumeSteps.InstallLeavesRows(before, a, i);
        if i == ch.calls { store.LeaseRunsOut(t); }
        var ok := store.InstallResumedMember(a.members[i].id, a.generation, a.launched[i], t);
        if !ok {
          store.Rollback(before);
          return a.(pc := ReadDurable);
        }
        i := i + 1;
      }
      b := a.(pc := Renew(Reattach));
    }

    method AcknowledgeDelivery(a: Attempt, i: nat, rest: seq<Delivery>) returns (b: Attempt, events: seq<Event>)
      requires a.token.Some? && i < |a.members| && rest != []
      modifies store
      ensures Effect(store.db, b, events) == AcknowledgeStep(old(store.db), a, i, rest)
    {
      var m := a.members[i].id;
      var ok := store.Acknowledge(m, rest[0].id, a.token.value);
      if !ok { return a.(pc := ReadDurable), []; }
      b, events := a.(pc := Checking(Deliver(i, rest))), [Acked(a.token.value, m, rest[0].id)];
    }

    /** Clear, save and activate: three fenced calls that all take effect or none. */
    method CommitResume(a: Attempt, ch: Choice) returns (b: Attempt, events: seq<Event>)
      requires a.token.Some? && |a.launched| == |a.members| && a.token.value.key == a.key
      modifies store
      ensures Effect(store.db, b, events) == CommitStep(old(store.db), a, ch)
    {
      var before, t := store.db, a.token.value;
      var result := Outcomes(a);
      if ch.calls == 0 { store.LeaseRunsOut(t); }
      var ok := store.ClearResumeLaunches(a.generation, t);
      if ok {
        if ch.calls == 1 { store.LeaseRunsOut(t); }
        ok := store.SaveResumeResult(t, result);
      }
      if ok {
        if ch.calls == 2 { store.LeaseRunsOut(t); }
        ok := store.MarkActive(t);
      }
      if !ok {
        store.Rollback(before);
        return a.(pc := ReadDurable), [];
      }
      b, events := a.(pc := Finished(result)), [Committed(t, a.members, result)];
    }

    /** Gives the claim back. The first stale call ends it and what was written before it stays. */
    method ReleaseClaim(a: Attempt, ch: Choice) returns (b: Attempt, events: seq<Event>)
      requires a.token.Some?
      modifies store
      ensures Effect(store.db, b, events) == ReleaseStep(old(store.db), a, ch)
    {
      var t := a.token.value;
      b, events := a.(pc := Failed), [];
      if ch.calls == 0 { store.LeaseRunsOut(t); }
      var ok := store.RollbackResumedMembers(a.generation, t);
      if !ok { return; }
      if ch.calls == 1 { store.LeaseRunsOut(t); }
      ok := store.ClearResumeLaunches(a.generation, t);
      if !ok { return; }
      if ch.calls == 2 { store.LeaseRunsOut(t); }
      var current := store.RenewResume(t);
      store.ReleaseResume(t);
      if current { events := [Freed(t, a.launched)]; }
    }

    /** What the teardown finds recorded, and where that leads. */
    method ReadLaunches(a: Attempt) returns (b: Attempt)
      ensures Effect(store.db, b, []) == ReadDurableStep(store.db, a)
    {
      var durable := store.ResumeLaunches(a.generation);
      b := a.(durable := durable);
      b := b.(pc := TeardownPc(b, |a.launched|));
    }
  }
}
