/**
 Resuming a suspended channel: any number of coordinators run `resume` against one durable store.

 Each coordinator advances one atomic step at a time: one store transaction, one renewal of the
 lease, or the return of one external call. Between any two steps the coordinator may crash, its
 lease may run out and another coordinator may take over.
 */
module ResumeSaga {
  import opened Options
  import opened BlueprintStore

  /** A call that runs under the lease: renewed before it starts and again when it returns. */
  datatype Op =
    | StopAbandoned(i: nat)
    | RollbackAbandoned(i: nat)
    | RollbackAbandonedGeneration
    | Reconcile(i: nat)
    | Launch(i: nat)
    | ProviderResume(i: nat)
    | Reattach
    | Deliver(i: nat, rest: seq<Delivery>)
    | StopLaunched(i: nat)
    | RollbackLaunched(i: nat)
    | RollbackGeneration

  datatype Pc =
    | Claim
    | FetchToken
    | ReadAbandoned
    | Renew(op: Op)
    | Running(op: Op)
    | Acknowledging(i: nat, rest: seq<Delivery>)
    | Checking(op: Op)
    | ForgetAbandoned
    | Record(i: nat)
    | SetResuming(i: nat)
    | SetResumed(i: nat)
    | Install
    | Fetch(i: nat)
    | Commit
    | ReadDurable
    | Release
    | Finished(result: seq<Outcome>)
    | Failed
    | Crashed

  type Launches = map<(MemberId, nat), Row>

  /** One call of `resume`, with its local variables. */
  datatype Attempt = Attempt(
    owner: Owner,
    key: Key,
    generation: nat,
    members: seq<Member>,
    token: Option<Token>,
    abandoned: seq<(MemberId, Row)>,
    arrived: Option<Runtime>,
    launched: seq<Runtime>,
    durable: Launches,
    teardownOk: bool,
    pc: Pc)

  datatype Event =
    | LaunchReturned(token: Token, member: MemberId, runtime: Runtime)
    /**
     The guard behind a returned launch failed, so its result is thrown away: the heartbeat had flagged
     the lease as lost, or the renewal found it not current.
     */
    | Dropped(token: Token, member: MemberId, runtime: Runtime, flagged: bool, current: bool)
    | ResumeCalled(token: Token, member: MemberId, conversation: Conversation)
    /** A `stopRollback` returned while its caller still held the lease. */
    | RolledBack(token: Token, member: MemberId, conversation: Conversation)
    /** A `stop` of a launched runtime returned while its caller still held the lease. */
    | Stopped(token: Token, runtime: Runtime)
    | Accepted(token: Token, member: MemberId, delivery: string, runtime: Runtime)
    | Acked(token: Token, member: MemberId, delivery: string)
    | Fetched(token: Token, member: MemberId, pending: set<Delivery>)
    | Committed(token: Token, members: seq<Member>, result: seq<Outcome>)
    | Freed(token: Token, launched: seq<Runtime>)

  /** How an external call ends. `Disowned` is the error that a stop may swallow. */
  datatype Reply = Returns | Throws | Disowned

  /**
   What the environment decides at a step: the reply, the runtime of a launch, whether the recipient
   accepted, whether the heartbeat flagged the lease as lost, the order of the rows that a query
   returns, and how many calls of a transaction still find the lease alive.
   */
  datatype Choice = Choice(
    reply: Reply,
    runtime: Runtime,
    accepted: bool,
    flagged: bool,
    rows: seq<(MemberId, Row)>,
    pending: seq<Delivery>,
    calls: nat)

  datatype Effect = Effect(db: Db, attempt: Attempt, events: seq<Event>)

  // ---------------------------------------------------------------- where control goes next

  predicate Distinct(members: seq<Member>) {
    forall i, j | 0 <= i < j < |members| :: members[i].id != members[j].id
  }

  /** The provider has to be asked; a runtime that owns its conversation resumes it by itself. */
  predicate AsksProvider(m: Member) {
    m.provider.Some? && !m.runtimeOwned
  }

  function LaunchPc(a: Attempt, i: nat): Pc {
    if i < |a.members| then Renew(Launch(i)) else Install
  }

  function ReconcilePc(a: Attempt, i: nat): Pc {
    if i < |a.members| then Renew(Reconcile(i)) else LaunchPc(a, 0)
  }

  function AbandonedPc(a: Attempt, i: nat): Pc {
    if i < |a.abandoned| then
      if a.abandoned[i].1.phase == ProviderResuming then Failed else Renew(StopAbandoned(i))
    else if |a.abandoned| > 0 then Renew(RollbackAbandonedGeneration)
    else ReconcilePc(a, 0)
  }

  function FetchPc(a: Attempt, i: nat): Pc {
    if i < |a.members| then Fetch(i) else Commit
  }

  function DeliverPc(a: Attempt, i: nat, rest: seq<Delivery>): Pc {
    if rest == [] then FetchPc(a, i + 1) else Renew(Deliver(i, rest))
  }

  predicate Ambiguous(durable: Launches) {
    exists k | k in durable :: durable[k].phase == ProviderResuming
  }

  /** Launched runtimes are torn down last first; `n` of them remain. */
  function TeardownPc(a: Attempt, n: nat): Pc {
    if n > 0 then Renew(StopLaunched(n - 1))
    else if a.teardownOk && !Ambiguous(a.durable) then Renew(RollbackGeneration)
    else Failed
  }

  predicate NeedsRollback(row: Row) {
    row.provider.Some? && row.phase == ProviderResumed
  }

  predicate LaunchedNeedsRollback(a: Attempt, i: nat)
    requires i < |a.members|
  {
    var k := (a.members[i].id, a.generation);
    a.members[i].provider.Some? && k in a.durable && a.durable[k].phase == ProviderResumed
  }

  // ---------------------------------------------------------------- a well-formed attempt

  predicate OpOk(a: Attempt, op: Op) {
    && (op.StopAbandoned? || op.RollbackAbandoned? ==> op.i < |a.abandoned|)
    && (op.RollbackAbandoned? ==> NeedsRollback(a.abandoned[op.i].1))
    && (op.StopAbandoned? || op.RollbackAbandoned? || op.RollbackAbandonedGeneration? || op.Reconcile?
       ==> a.launched == [])
    && (op.Reconcile? || op.Deliver? ==> op.i < |a.members|)
    && (op.Launch? ==> op.i == |a.launched| < |a.members|)
    && (op.ProviderResume? ==> op.i + 1 == |a.launched| <= |a.members| && AsksProvider(a.members[op.i]))
    && (op.Reattach? || op.Deliver? ==> |a.launched| == |a.members|)
    && (op.Deliver? ==> op.rest != [])
    && (op.StopLaunched? || op.RollbackLaunched? ==> op.i < |a.launched| <= |a.members|)
    && (op.RollbackLaunched? ==> LaunchedNeedsRollback(a, op.i))
  }

  /** The local variables fit the point that control has reached. */
  predicate WellFormed(a: Attempt) {
    && Distinct(a.members) && |a.launched| <= |a.members|
    && (a.token.Some? ==> a.token.value.owner == a.owner && a.token.value.key == a.key)
    && (a.pc.Claim? || a.pc.FetchToken? || a.pc.Finished? || a.pc.Failed? || a.pc.Crashed? || a.token.Some?)
    && (a.pc.Claim? || a.pc.FetchToken? || a.pc.ReadAbandoned? || a.pc.ForgetAbandoned? ==> a.launched == [])
    && (a.pc.Renew? || a.pc.Running? || a.pc.Checking? ==> OpOk(a, a.pc.op))
    && (a.pc.Checking? && a.pc.op.Launch? ==> a.arrived.Some?)
    && (a.pc.Acknowledging? ==> a.pc.rest != [])
    && (a.pc.Acknowledging? || a.pc.Fetch? ==> a.pc.i < |a.members|)
    && (a.pc.Record? || a.pc.SetResuming? || a.pc.SetResumed? ==> a.pc.i + 1 == |a.launched|)
    && (a.pc.SetResuming? || a.pc.SetResumed? ==> a.members[a.pc.i].provider.Some?)
    && (a.pc.Install? || a.pc.Fetch? || a.pc.Acknowledging? || a.pc.Commit? ==> |a.launched| == |a.members|)
  }

  // ---------------------------------------------------------------- steps

  /** Where a failure leads: out of `resume` before the launches, into the teardown afterwards. */
  function Fail(a: Attempt, op: Op): Attempt
    requires OpOk(a, op)
  {
    match op
    case StopAbandoned(_) => a.(pc := Failed)
    case RollbackAbandoned(_) => a.(pc := Failed)
    case RollbackAbandonedGeneration => a.(pc := Failed)
    case Reconcile(_) => a.(pc := Failed)
    case StopLaunched(i) =>
      var b := a.(teardownOk := false);
      b.(pc := AfterStop(b, i))
    case RollbackLaunched(i) =>
      var b := a.(teardownOk := false);
      b.(pc := TeardownPc(b, i))
    case RollbackGeneration => a.(pc := Failed)
    case _ => a.(pc := ReadDurable)
  }

  function AfterStop(a: Attempt, i: nat): Pc
    requires i < |a.members|
  {
    if LaunchedNeedsRollback(a, i) then Renew(RollbackLaunched(i)) else TeardownPc(a, i)
  }

  function Succeed(a: Attempt, op: Op): Attempt
    requires OpOk(a, op) && (op.Launch? ==> a.arrived.Some?)
  {
    match op
    case StopAbandoned(i) => a.(pc := AbandonedPc(a, i + 1))
    case RollbackAbandoned(i) => a.(pc := AbandonedPc(a, i + 1))
    case RollbackAbandonedGeneration => a.(pc := ForgetAbandoned)
    case Reconcile(i) => a.(pc := ReconcilePc(a, i + 1))
    case Launch(i) => a.(launched := a.launched + [a.arrived.value], arrived := None, pc := Record(i))
    case ProviderResume(i) => a.(pc := SetResumed(i))
    case Reattach => a.(pc := FetchPc(a, 0))
    case Deliver(i, rest) => a.(pc := DeliverPc(a, i, rest[1..]))
    case StopLaunched(i) => a.(pc := AfterStop(a, i))
    case RollbackLaunched(i) => a.(pc := TeardownPc(a, i))
    case RollbackGeneration => a.(pc := Release)
  }

  function Stay(db: Db, a: Attempt): Effect {
    Effect(db, a, [])
  }

  /** The renewal before an operation; `validateResume` may throw before a launch. */
  function RenewStep(db: Db, a: Attempt, op: Op, ch: Choice): Effect
    requires OpOk(a, op) && a.token.Some?
  {
    if op.Launch? && AsksProvider(a.members[op.i]) && ch.reply.Throws? then Stay(db, Fail(a, op))
    else if !Current(db, a.token.value) then Stay(db, Fail(a, op))
    else if op.ProviderResume? then
      Effect(db, a.(pc := Running(op)),
          [ResumeCalled(a.token.value, a.members[op.i].id, a.members[op.i].provider.value)])
    else Stay(db, a.(pc := Running(op)))
  }

  /** An external call ends. */
  function RunningStep(db: Db, a: Attempt, op: Op, ch: Choice): Effect
    requires OpOk(a, op) && a.token.Some?
  {
    if op.Reconcile? && ch.reply.Disowned? then Stay(db, a.(pc := ReconcilePc(a, op.i + 1)))
    else if !ch.reply.Returns? then Stay(db, Fail(a, op))
    else
      match op
      case StopAbandoned(i) =>
        Stay(db, a.(pc := if NeedsRollback(a.abandoned[i].1) then Running(RollbackAbandoned(i)) else Checking(op)))
      case Launch(i) =>
        Effect(db, a.(arrived := Some(ch.runtime), pc := Checking(op)),
            [LaunchReturned(a.token.value, a.members[i].id, ch.runtime)])
      case Deliver(i, rest) =>
        if ch.accepted then
          Effect(db, a.(pc := Acknowledging(i, rest)),
              [Accepted(a.token.value, a.members[i].id, rest[0].id, a.launched[i])])
        else Stay(db, Fail(a, op))
      case _ => Stay(db, a.(pc := Checking(op)))
  }

  /** What a call has achieved once it returned under the lease. */
  function Achieved(a: Attempt, op: Op): seq<Event>
    requires OpOk(a, op) && a.token.Some?
  {
    match op
    case RollbackAbandoned(i) => [RolledBack(a.token.value, a.abandoned[i].0, a.abandoned[i].1.provider.value)]
    case RollbackLaunched(i) => [RolledBack(a.token.value, a.members[i].id, a.members[i].provider.value)]
    case StopLaunched(i) => [Stopped(a.token.value, a.launched[i])]
    case _ => []
  }

  /** The renewal after an operation, unless the heartbeat has already given the lease up. */
  function CheckingStep(db: Db, a: Attempt, op: Op, ch: Choice): Effect
    requires OpOk(a, op) && a.token.Some? && (op.Launch? ==> a.arrived.Some?)
  {
    if ch.flagged || !Current(db, a.token.value) then
      if op.Launch? then
        Effect(db, a.(arrived := None, pc := ReadDurable),
               [Dropped(a.token.value, a.members[op.i].id, a.arrived.value, ch.flagged, Current(db, a.token.value))])
      else Stay(db, Fail(a, op))
    else Effect(db, Succeed(a, op), Achieved(a, op))
  }

  function ClaimStep(db: Db, a: Attempt): Effect {
    if Claimable(db, a.key, a.generation) then Stay(Claimed(db, a.key, a.generation, a.owner), a.(pc := FetchToken))
    else if a.key in db.results then Stay(db, a.(pc := Finished(db.results[a.key])))
    else Stay(db, a.(pc := Failed))
  }

  function FetchTokenStep(db: Db, a: Attempt): Effect {
    var token := CurrentToken(db, a.key, a.owner);
    if token.Some? then Stay(db, a.(token := token, pc := ReadAbandoned)) else Stay(db, a.(pc := Failed))
  }

  /** The rows of one generation, each once, in some order. */
  ghost predicate Lists(rows: seq<(MemberId, Row)>, launches: Launches, generation: nat) {
    && (forall i | 0 <= i < |rows| ::
       (rows[i].0, generation) in launches && launches[(rows[i].0, generation)] == rows[i].1)
    && (forall m | (m, generation) in launches :: exists i :: 0 <= i < |rows| && rows[i].0 == m)
    && (forall i, j | 0 <= i < j < |rows| :: rows[i].0 != rows[j].0)
  }

  ghost function ReadAbandonedStep(db: Db, a: Attempt, ch: Choice): Effect {
    if Lists(ch.rows, db.launches, a.generation) then
      var b := a.(abandoned := ch.rows);
      Stay(db, b.(pc := AbandonedPc(b, 0)))
    else Stay(db, a)
  }

  /** A transaction of two fenced writes; one stale write throws and rolls everything back. */
  function ForgetAbandonedStep(db: Db, a: Attempt, ch: Choice): Effect
    requires a.token.Some?
  {
    if !Current(db, a.token.value) then Stay(db, a.(pc := Failed))
    else if ch.calls < 2 then Stay(db.(live := false), a.(pc := Failed))
    else Stay(Cleared(MembersRolledBack(db, a.generation), a.generation), a.(pc := ReconcilePc(a, 0)))
  }

  function RecordStep(db: Db, a: Attempt, i: nat): Effect
    requires a.token.Some? && i + 1 == |a.launched| <= |a.members|
  {
    var m := a.members[i];
    if !Current(db, a.token.value) then Stay(db, a.(pc := ReadDurable))
    else Stay(Recorded(db, m.id, a.generation, a.launched[i], m.provider),
              a.(pc := if m.provider.Some? then SetResuming(i) else LaunchPc(a, i + 1)))
  }

  function SetResumingStep(db: Db, a: Attempt, i: nat): Effect
    requires a.token.Some? && i + 1 == |a.launched| <= |a.members| && a.members[i].provider.Some?
  {
    var m := a.members[i];
    if !Current(db, a.token.value) || (m.id, a.generation) !in db.launches then Stay(db, a.(pc := ReadDurable))
    else Stay(Phased(db, m.id, a.generation, ProviderResuming),
              a.(pc := if AsksProvider(m) then Renew(ProviderResume(i)) else SetResumed(i)))
  }

  function SetResumedStep(db: Db, a: Attempt, i: nat): Effect
    requires a.token.Some? && i + 1 == |a.launched| <= |a.members|
  {
    var m := a.members[i];
    if !Current(db, a.token.value) || (m.id, a.generation) !in db.launches then Stay(db, a.(pc := ReadDurable))
    else Stay(Phased(db, m.id, a.generation, ProviderResumed), a.(pc := LaunchPc(a, i + 1)))
  }

  function InstallAll(db: Db, a: Attempt, n: nat): Db
    requires n <= |a.launched| <= |a.members|
  {
    if n == 0 then db else Installed(InstallAll(db, a, n - 1), a.members[n - 1].id, a.generation, a.launched[n - 1])
  }

  function InstallStep(db: Db, a: Attempt, ch: Choice): Effect
    requires a.token.Some? && |a.launched| == |a.members|
  {
    if |a.launched| > 0 && !Current(db, a.token.value) then Stay(db, a.(pc := ReadDurable))
    else if ch.calls < |a.launched| then Stay(db.(live := false), a.(pc := ReadDurable))
    else Stay(InstallAll(db, a, |a.launched|), a.(pc := Renew(Reattach)))
  }

  /** A query result: the pending deliveries of a member, by cursor. */
  ghost predicate ListsPending(pending: seq<Delivery>, wanted: set<Delivery>) {
    && (forall d :: d in pending <==> d in wanted)
    && (forall i, j | 0 <= i < j < |pending| :: pending[i] != pending[j] && pending[i].cursor <= pending[j].cursor)
  }

  /** A stale token reads no deliveries at all. */
  ghost function FetchStep(db: Db, a: Attempt, i: nat, ch: Choice): Effect
    requires a.token.Some? && i < |a.members|
  {
    var m := a.members[i];
    var wanted := PendingAfter(db, m.cursor, m.id);
    if !Current(db, a.token.value) then Stay(db, a.(pc := FetchPc(a, i + 1)))
    else if ListsPending(ch.pending, wanted) then
      Effect(db, a.(pc := DeliverPc(a, i, ch.pending)), [Fetched(a.token.value, m.id, wanted)])
    else Stay(db, a)
  }

  function AcknowledgeStep(db: Db, a: Attempt, i: nat, rest: seq<Delivery>): Effect
    requires a.token.Some? && i < |a.members| && rest != []
  {
    var m := a.members[i].id;
    if !Current(db, a.token.value) || (m, rest[0].id) in db.acks then Stay(db, a.(pc := ReadDurable))
    else Effect(Acknowledged(db, m, rest[0].id), a.(pc := Checking(Deliver(i, rest))),
        [Acked(a.token.value, m, rest[0].id)])
  }

  function Outcomes(a: Attempt): (r: seq<Outcome>)
    requires |a.launched| <= |a.members|
  {
    seq(|a.launched|, i requires 0 <= i < |a.launched| => Resumed(a.members[i].id, a.launched[i], a.generation))
  }

  /** Clear, save and activate together, or not at all. */
  function CommitStep(db: Db, a: Attempt, ch: Choice): Effect
    requires a.token.Some? && |a.launched| == |a.members|
  {
    if !Current(db, a.token.value) then Stay(db, a.(pc := ReadDurable))
    else if ch.calls < 3 then Stay(db.(live := false), a.(pc := ReadDurable))
    else
      Effect(Activated(Saved(Cleared(db, a.generation), a.key, Outcomes(a))), a.(pc := Finished(Outcomes(a))),
             [Committed(a.token.value, a.members, Outcomes(a))])
  }

  function ReadDurableStep(db: Db, a: Attempt): Effect {
    var b := a.(durable := LaunchesOf(db, a.generation));
    Stay(db, b.(pc := TeardownPc(b, |a.launched|)))
  }

  /** Three fenced writes in one transaction; a stale one ends it, keeping what was written before. */
  function ReleaseStep(db: Db, a: Attempt, ch: Choice): Effect
    requires a.token.Some?
  {
    var b := a.(pc := Failed);
    if !Current(db, a.token.value) then Stay(db, b)
    else if ch.calls == 0 then Stay(db.(live := false), b)
    else if ch.calls == 1 then Stay(MembersRolledBack(db, a.generation).(live := false), b)
    else if ch.calls == 2 then Stay(Cleared(MembersRolledBack(db, a.generation), a.generation).(live := false), b)
    else
      Effect(Released(Cleared(MembersRolledBack(db, a.generation), a.generation)), b,
             [Freed(a.token.value, a.launched)])
  }

  ghost function Step(db: Db, a: Attempt, ch: Choice): Effect
    requires WellFormed(a)
  {
    match a.pc
    case Claim => ClaimStep(db, a)
    case FetchToken => FetchTokenStep(db, a)
    case ReadAbandoned => ReadAbandonedStep(db, a, ch)
    case Renew(op) => RenewStep(db, a, op, ch)
    case Running(op) => RunningStep(db, a, op, ch)
    case Acknowledging(i, rest) => AcknowledgeStep(db, a, i, rest)
    case Checking(op) => CheckingStep(db, a, op, ch)
    case ForgetAbandoned => ForgetAbandonedStep(db, a, ch)
    case Record(i) => RecordStep(db, a, i)
    case SetResuming(i) => SetResumingStep(db, a, i)
    case SetResumed(i) => SetResumedStep(db, a, i)
    case Install => InstallStep(db, a, ch)
    case Fetch(i) => FetchStep(db, a, i, ch)
    case Commit => CommitStep(db, a, ch)
    case ReadDurable => ReadDurableStep(db, a)
    case Release => ReleaseStep(db, a, ch)
    case _ => Stay(db, a)
  }

  // ---------------------------------------------------------------- the whole system

  datatype System = System(db: Db, attempts: map<Owner, Attempt>, log: seq<Event>)

  datatype Action =
    /** A channel that is active is suspended again: every member stopped, its launches long cleared. */
    | Suspend
    | Enqueue(delivery: Delivery)
    /** The lease of whoever holds it runs out. */
    | Expire
    | Begin(owner: Owner, key: Key, generation: nat, members: seq<Member>)
    | Advance(owner: Owner, choice: Choice)
    | Crash(owner: Owner)

  function NewAttempt(owner: Owner, key: Key, generation: nat, members: seq<Member>): Attempt {
    Attempt(owner, key, generation, members, None, [], None, [], map[], true, Claim)
  }

  /** A process serializes its calls for a channel and gets a fresh owner id when it starts. */
  predicate MayBegin(s: System, owner: Owner) {
    owner !in s.attempts || s.attempts[owner].pc.Finished? || s.attempts[owner].pc.Failed?
  }

  ghost function Next(s: System, action: Action): System {
    match action
    case Suspend => if s.db.state == Active then s.(db := s.db.(state := Suspended)) else s
    case Enqueue(d) => s.(db := s.db.(queue := s.db.queue + {d}))
    case Expire => s.(db := s.db.(live := false))
    case Begin(owner, key, generation, members) =>
      if MayBegin(s, owner) && Distinct(members)
          then s.(attempts := s.attempts[owner := NewAttempt(owner, key, generation, members)]) else s
    case Advance(owner, ch) =>
      if owner in s.attempts && WellFormed(s.attempts[owner]) then
        var e := Step(s.db, s.attempts[owner], ch);
        System(e.db, s.attempts[owner := e.attempt], s.log + e.events)
      else s
    case Crash(owner) =>
        if owner in s.attempts then s.(attempts := s.attempts[owner := s.attempts[owner].(pc := Crashed)]) else s
  }

  ghost function Run(s: System, actions: seq<Action>): System {
    if actions == [] then s else Next(Run(s, actions[..|actions| - 1]), actions[|actions| - 1])
  }

  /** A channel that has just been suspended, with any history of results and deliveries behind it. */
  ghost predicate Start(s: System) {
    s.db.state == Suspended && s.db.launches == map[] && s.attempts == map[] && s.log == []
  }
}
