/**
 Delivering a message to the terminal: many connections may ask for the same transaction at once, and
 each of them may die half way, but only one ever writes.
 */
module Delivery {
  import opened Ring

  type ConnectionId = nat
  type Id = string

  datatype Transaction = Transaction(id: Id, frames: seq<seq<byte>>, delays: seq<nat>)

  datatype Status = InProgress | Written(bytes: nat) | Uncertain(bytes: nat)

  const MAX_DELIVERIES := 4096
  const MAX_FRAME_BYTES := 65536
  const MAX_PAYLOAD_BYTES := 1048576
  const MAX_DELAY_MS := 5000

  // ---------------------------------------------------------------- the checks on a transaction

  function TotalBytes(frames: seq<seq<byte>>): nat {
    if frames == [] then 0 else TotalBytes(frames[..|frames| - 1]) + |frames[|frames| - 1]|
  }

  function TotalDelay(delays: seq<nat>): nat {
    if delays == [] then 0 else TotalDelay(delays[..|delays| - 1]) + delays[|delays| - 1]
  }

  /** What an accepted transaction satisfies, frame by frame and in sum. */
  predicate Acceptable(tx: Transaction) {
    && tx.id != "" && 0 < |tx.frames| <= 64 && |tx.delays| == |tx.frames|
    && (forall i | 0 <= i < |tx.frames| :: |tx.frames[i]| <= MAX_FRAME_BYTES)
    && TotalBytes(tx.frames) <= MAX_PAYLOAD_BYTES && TotalDelay(tx.delays) <= MAX_DELAY_MS
  }

  /** The loop that sums up a transaction and gives up on the first frame that is too long or has no delay. */
  method Check(tx: Transaction) returns (ok: bool)
    ensures ok <==> Acceptable(tx)
  {
    var payload, delay := 0, 0;
    var i := 0;
    while i < |tx.frames|
      invariant i <= |tx.frames|
      invariant i <= |tx.delays| && (forall k | 0 <= k < i :: |tx.frames[k]| <= MAX_FRAME_BYTES)
      invariant payload == TotalBytes(tx.frames[..i]) && delay == TotalDelay(tx.delays[..i])
    {
      if i >= |tx.delays| || |tx.frames[i]| > MAX_FRAME_BYTES {
        return false;
      }
      assert tx.frames[..i + 1][..i] == tx.frames[..i] && tx.delays[..i + 1][..i] == tx.delays[..i];
      payload := payload + |tx.frames[i]|;
      delay := delay + tx.delays[i];
      i := i + 1;
    }
    assert tx.frames[..|tx.frames|] == tx.frames;
    if tx.id == "" || |tx.frames| == 0 || |tx.frames| > 64 || |tx.delays| != |tx.frames| { return false; }
    assert tx.delays[..|tx.frames|] == tx.delays;
    ok := payload <= MAX_PAYLOAD_BYTES && delay <= MAX_DELAY_MS;
  }

  lemma {:induction false} EachDelayIsBounded(delays: seq<nat>, i: nat)
    requires i < |delays|
    ensures delays[i] <= TotalDelay(delays)
  {
    if i < |delays| - 1 { EachDelayIsBounded(delays[..|delays| - 1], i); }
  }

  /** After the checks, the size and delay exit inside the write loop can never be taken. */
  lemma InLoopExitIsUnreachable(tx: Transaction, i: nat)
    requires Acceptable(tx) && i < |tx.frames|
    ensures !(|tx.frames[i]| > MAX_FRAME_BYTES || tx.delays[i] > MAX_DELAY_MS)
  {
    EachDelayIsBounded(tx.delays, i);
  }

  // ---------------------------------------------------------------- connections side by side

  /** Where the handler of one connection stands. `frame` counts the frames written, `bytes` their bytes. */
  datatype Handler =
    | Idle
    | Checked(tx: Transaction)
    | Absent(tx: Transaction)
    | Writing(tx: Transaction, frame: nat, bytes: nat)
    | Closing

  datatype Event =
    | Frame(connection: ConnectionId, id: Id, frame: nat)
    | Moved(id: Id, status: Status)

  datatype World = World(delivered: map<Id, Status>, handlers: map<ConnectionId, Handler>, log: seq<Event>)

  datatype Step =
    | Ask(connection: ConnectionId, tx: Transaction)
    | Look(connection: ConnectionId)
    | Claim(connection: ConnectionId)
    /** One frame goes to the terminal: all of it, or `n` bytes and an error. */
    | WriteFrame(connection: ConnectionId, ok: bool, n: nat)
    | Finish(connection: ConnectionId)
    | Dies(connection: ConnectionId)

  function HandlerOf(w: World, c: ConnectionId): Handler {
    if c in w.handlers then w.handlers[c] else Idle
  }

  function At(w: World, c: ConnectionId, h: Handler): World {
    w.(handlers := w.handlers[c := h])
  }

  function Move(w: World, id: Id, status: Status): World {
    w.(delivered := w.delivered[id := status], log := w.log + [Moved(id, status)])
  }

  /** The two lock sections before a delivery: the id must be absent both times. */
  function LookStep(w: World, c: ConnectionId, tx: Transaction): World {
    if tx.id in w.delivered then At(w, c, Idle)
    else if |tx.id| > 256 || |w.delivered| >= MAX_DELIVERIES then At(w, c, Closing)
    else At(w, c, Absent(tx))
  }

  function ClaimStep(w: World, c: ConnectionId, tx: Transaction): World {
    if tx.id in w.delivered then At(w, c, Idle) else Move(At(w, c, Writing(tx, 0, 0)), tx.id, InProgress)
  }

  function WriteStep(w: World, c: ConnectionId, tx: Transaction, frame: nat, bytes: nat, ok: bool, n: nat): World
    requires frame < |tx.frames|
  {
    var w' := w.(log := w.log + [Frame(c, tx.id, frame)]);
    if ok then At(w', c, Writing(tx, frame + 1, bytes + |tx.frames[frame]|))
    else Move(At(w', c, Closing), tx.id, Uncertain(bytes + n))
  }

  function Next(w: World, step: Step): World {
    var h := HandlerOf(w, step.connection);
    match step
    case Ask(c, tx) => if h.Idle? && Acceptable(tx) then At(w, c, Checked(tx)) else w
    case Look(c) => if h.Checked? then LookStep(w, c, h.tx) else w
    case Claim(c) => if h.Absent? then ClaimStep(w, c, h.tx) else w
    case WriteFrame(c, ok, n) =>
        if h.Writing? && h.frame < |h.tx.frames| then WriteStep(w, c, h.tx, h.frame, h.bytes, ok, n) else w
    case Finish(c) =>
        if h.Writing? && h.frame == |h.tx.frames| then Move(At(w, c, Idle), h.tx.id, Written(h.bytes)) else w
    case Dies(c) => At(w, c, Closing)
  }

  function Run(steps: seq<Step>): World {
    if steps == [] then World(map[], map[], []) else Next(Run(steps[..|steps| - 1]), steps[|steps| - 1])
  }

  // ---------------------------------------------------------------- the invariant

  /** A connection that writes holds an id whose state is in progress, and nobody else holds it. */
  ghost predicate WriterOk(w: World, c: ConnectionId) {
    c in w.handlers && w.handlers[c].Writing? ==>
      var h := w.handlers[c];
      && Acceptable(h.tx) && h.frame <= |h.tx.frames| && h.bytes == TotalBytes(h.tx.frames[..h.frame])
      && h.tx.id in w.delivered && w.delivered[h.tx.id] == InProgress
      && (forall e | e in w.log && e.Frame? && e.id == h.tx.id :: e.connection == c && e.frame < h.frame)
      && (forall f | 0 <= f < h.frame :: Frame(c, h.tx.id, f) in w.log)
      && (forall e | e in w.log && e.Moved? && e.id == h.tx.id :: e.status == InProgress)
  }

  ghost predicate OneWriter(w: World) {
    forall c, d | c in w.handlers && d in w.handlers && w.handlers[c].Writing? && w.handlers[d].Writing?
        && w.handlers[c].tx.id == w.handlers[d].tx.id :: c == d
  }

  /** What each event of the log had to find. */
  ghost predicate EventOk(before: seq<Event>, e: Event) {
    match e
    case Frame(c, id, frame) =>
      && (forall x | x in before && x.Frame? && x.id == id :: x.connection == c && x.frame < frame)
      && (forall x | x in before && x.Moved? && x.id == id :: x.status == InProgress)
    case Moved(id, InProgress) => forall x | x in before :: x.id != id
    case Moved(id, _) => forall x | x in before && x.Moved? && x.id == id :: x.status == InProgress
  }

  ghost predicate LogOk(log: seq<Event>) {
    forall i | 0 <= i < |log| :: EventOk(log[..i], log[i])
  }

  ghost predicate Ok(w: World) {
    && (forall c | c in w.handlers :: WriterOk(w, c)) && OneWriter(w) && LogOk(w.log)
    && (forall e | e in w.log :: e.id in w.delivered)
    && (forall c | c in w.handlers && (w.handlers[c].Checked? || w.handlers[c].Absent?) :: Acceptable(w.handlers[c].tx))
  }

  lemma LogOkNext(log: seq<Event>, e: Event)
    requires LogOk(log) && EventOk(log, e)
    ensures LogOk(log + [e])
  {
    forall i | 0 <= i < |log + [e]| ensures EventOk((log + [e])[..i], (log + [e])[i]) {
      if i < |log| { assert (log + [e])[..i] == log[..i]; } else { assert (log + [e])[..i] == log; }
    }
  }

  lemma QuietOk(w: World, c: ConnectionId, h: Handler)
    requires Ok(w) && !h.Writing? && (h.Checked? || h.Absent? ==> Acceptable(h.tx))
    ensures Ok(At(w, c, h))
  {
    var w' := At(w, c, h);
    forall d | d in w'.handlers ensures WriterOk(w', d) { assert d in w.handlers ==> WriterOk(w, d); }
  }

  lemma ClaimOk(w: World, c: ConnectionId, tx: Transaction)
    requires Ok(w) && HandlerOf(w, c) == Absent(tx)
    ensures Ok(ClaimStep(w, c, tx))
  {
    if tx.id in w.delivered {
      QuietOk(w, c, Idle);
    } else {
      var w' := ClaimStep(w, c, tx);
      LogOkNext(w.log, Moved(tx.id, InProgress));
      assert tx.frames[..0] == [];
      forall d | d in w'.handlers ensures WriterOk(w', d) { assert d in w.handlers ==> WriterOk(w, d); }
    }
  }

  /** The frame that the one writer of an id writes next is a new one, and the first after all others. */
  lemma FrameLogged(w: World, c: ConnectionId)
    requires Ok(w) && HandlerOf(w, c).Writing? && HandlerOf(w, c).frame < |HandlerOf(w, c).tx.frames|
    ensures var h := HandlerOf(w, c);
            var frame := Frame(c, h.tx.id, h.frame);
            && LogOk(w.log + [frame]) && EventOk(w.log + [frame], Moved(h.tx.id, Uncertain(0)))
  {
    assert WriterOk(w, c);
    LogOkNext(w.log, Frame(c, HandlerOf(w, c).tx.id, HandlerOf(w, c).frame));
  }

  /** `w'` has come from `w` by events of one id only, and only one handler has moved. */
  ghost predicate OnlyOf(w: World, w': World, c: ConnectionId, id: Id, events: seq<Event>) {
    && w'.log == w.log + events && (forall e | e in events :: e.id == id)
    && (forall i | i in w.delivered && i != id :: i in w'.delivered && w'.delivered[i] == w.delivered[i])
    && (forall d | d in w'.handlers && d != c :: d in w.handlers && w'.handlers[d] == w.handlers[d])
  }

  /** The other writers hold other ids, so nothing changes for them. */
  lemma OtherWriterOk(w: World, w': World, c: ConnectionId, events: seq<Event>, d: ConnectionId)
    requires Ok(w) && HandlerOf(w, c).Writing? && OnlyOf(w, w', c, HandlerOf(w, c).tx.id, events)
    requires d in w'.handlers && d != c
    ensures WriterOk(w', d)
  {
    assert WriterOk(w, d);
    assert c in w.handlers && d in w.handlers;
    if w.handlers[d].Writing? {
      var h := w.handlers[d];
      assert h.tx.id != w.handlers[c].tx.id;
      forall f | 0 <= f < h.frame ensures Frame(d, h.tx.id, f) in w'.log { assert Frame(d, h.tx.id, f) in w.log; }
      assert forall e | e in w'.log && e.id == h.tx.id :: e in w.log;
    }
  }

  lemma FrameWritten(w: World, c: ConnectionId)
    requires Ok(w) && HandlerOf(w, c).Writing? && HandlerOf(w, c).frame < |HandlerOf(w, c).tx.frames|
    ensures var h := HandlerOf(w, c); Ok(WriteStep(w, c, h.tx, h.frame, h.bytes, true, 0))
  {
    var h := HandlerOf(w, c);
    var w' := WriteStep(w, c, h.tx, h.frame, h.bytes, true, 0);
    assert WriterOk(w, c);
    FrameLogged(w, c);
    assert h.tx.frames[..h.frame + 1][..h.frame] == h.tx.frames[..h.frame];
    forall d | d in w'.handlers ensures WriterOk(w', d) {
      if d != c { OtherWriterOk(w, w', c, [Frame(c, h.tx.id, h.frame)], d); }
    }
  }

  lemma FrameFailed(w: World, c: ConnectionId, n: nat)
    requires Ok(w) && HandlerOf(w, c).Writing? && HandlerOf(w, c).frame < |HandlerOf(w, c).tx.frames|
    ensures var h := HandlerOf(w, c); Ok(WriteStep(w, c, h.tx, h.frame, h.bytes, false, n))
  {
    var h := HandlerOf(w, c);
    var w' := WriteStep(w, c, h.tx, h.frame, h.bytes, false, n);
    var frame, moved := Frame(c, h.tx.id, h.frame), Moved(h.tx.id, Uncertain(h.bytes + n));
    assert WriterOk(w, c);
    FrameLogged(w, c);
    LogOkNext(w.log + [frame], moved);
    assert w.log + [frame] + [moved] == w.log + [frame, moved];
    forall d | d in w'.handlers ensures WriterOk(w', d) {
      if d != c { OtherWriterOk(w, w', c, [frame, moved], d); }
    }
  }

  lemma FinishOk(w: World, c: ConnectionId)
    requires Ok(w) && HandlerOf(w, c).Writing? && HandlerOf(w, c).frame == |HandlerOf(w, c).tx.frames|
    ensures Ok(Next(w, Finish(c)))
  {
    var h := HandlerOf(w, c);
    var w' := Next(w, Finish(c));
    assert WriterOk(w, c);
    LogOkNext(w.log, Moved(h.tx.id, Written(h.bytes)));
    forall d | d in w'.handlers ensures WriterOk(w', d) {
      if d != c { OtherWriterOk(w, w', c, [Moved(h.tx.id, Written(h.bytes))], d); }
    }
  }

  lemma NextOk(w: World, step: Step)
    requires Ok(w)
    ensures Ok(Next(w, step))
  {
    var c := step.connection;
    var h := HandlerOf(w, c);
    match step
    case Ask(_, tx) => if h.Idle? && Acceptable(tx) { QuietOk(w, c, Checked(tx)); }
    case Look(_) =>
      if h.Checked? {
        QuietOk(w, c, Idle);
        QuietOk(w, c, Closing);
        QuietOk(w, c, Absent(h.tx));
      }
    case Claim(_) => if h.Absent? { ClaimOk(w, c, h.tx); }
    case WriteFrame(_, ok, n) =>
        if h.Writing? && h.frame < |h.tx.frames| { if ok { FrameWritten(w, c); } else { FrameFailed(w, c, n); } }
    case Finish(_) => if h.Writing? && h.frame == |h.tx.frames| { FinishOk(w, c); }
    case Dies(_) => QuietOk(w, c, Closing);
  }

  lemma {:induction false} RunOk(steps: seq<Step>)
    ensures Ok(Run(steps))
  {
    if steps != [] {
      RunOk(steps[..|steps| - 1]);
      NextOk(Run(steps[..|steps| - 1]), steps[|steps| - 1]);
    }
  }

  // ---------------------------------------------------------------- theorems

  /** At most once: all frames of one transaction id are written by one connection, each at most once and in order. */
  lemma DeliveredAtMostOnce(steps: seq<Step>, i: nat, j: nat)
    requires var log := Run(steps).log; i < j < |log| && log[i].Frame? && log[j].Frame? && log[i].id == log[j].id
    ensures var log := Run(steps).log; log[i].connection == log[j].connection && log[i].frame < log[j].frame
  {
    RunOk(steps);
    var log := Run(steps).log;
    assert EventOk(log[..j], log[j]);
    assert log[..j][i] in log[..j];
  }

  /** The state of an id only moves from absent to in progress, and from there once to written or to uncertain. */
  lemma StateMovesForward(steps: seq<Step>, i: nat, j: nat)
    requires var log := Run(steps).log; i < j < |log| && log[i].Moved? && log[j].Moved? && log[i].id == log[j].id
    ensures var log := Run(steps).log; log[i].status == InProgress && log[j].status != InProgress
  {
    RunOk(steps);
    var log := Run(steps).log;
    assert EventOk(log[..j], log[j]);
    assert log[..j][i] in log[..j];
  }

  /** Nothing is written to the terminal for an id after its state has become final. */
  lemma NothingAfterTheEnd(steps: seq<Step>, i: nat, j: nat)
    requires var log := Run(steps).log; i < j < |log| && log[i].Moved? && log[j].Frame? && log[i].id == log[j].id
    ensures Run(steps).log[i].status == InProgress
  {
    RunOk(steps);
    var log := Run(steps).log;
    assert EventOk(log[..j], log[j]);
    assert log[..j][i] in log[..j];
  }

  /** Written means everything: at the step that says so, every frame is in the log and the count is their sum. */
  lemma WrittenIsTheSum(steps: seq<Step>, step: Step, id: Id)
    requires var w, w' := Run(steps), Next(Run(steps), step);
             id in w'.delivered && w'.delivered[id].Written?
                 && !(id in w.delivered && w.delivered[id] == w'.delivered[id])
    ensures var w, w' := Run(steps), Next(Run(steps), step);
            var h := HandlerOf(w, step.connection);
            && step.Finish? && h.Writing? && h.tx.id == id && h.frame == |h.tx.frames|
            && w'.delivered[id].bytes == TotalBytes(h.tx.frames)
            && (forall f | 0 <= f < |h.tx.frames| :: Frame(step.connection, id, f) in w'.log)
  {
    RunOk(steps);
    var w := Run(steps);
    var h := HandlerOf(w, step.connection);
    if h.Writing? {
      assert WriterOk(w, step.connection);
      assert h.tx.frames[..|h.tx.frames|] == h.tx.frames;
    }
  }

  // ---------------------------------------------------------------- a delivery completes

  function Concat(frames: seq<seq<byte>>): seq<byte> {
    if frames == [] then [] else frames[0] + Concat(frames[1..])
  }

  function Sum(delays: seq<nat>): nat {
    if delays == [] then 0 else delays[0] + Sum(delays[1..])
  }

  lemma {:induction false} ConcatNext(frames: seq<seq<byte>>, frame: seq<byte>)
    ensures Concat(frames + [frame]) == Concat(frames) + frame
  {
    if frames == [] {
      assert ([] + [frame])[1..] == [];
    } else {
      ConcatNext(frames[1..], frame);
      assert (frames + [frame])[1..] == frames[1..] + [frame];
    }
  }

  lemma {:induction false} TotalIsConcat(frames: seq<seq<byte>>)
    ensures TotalBytes(frames) == |Concat(frames)|
  {
    if frames != [] {
      var init, last := frames[..|frames| - 1], frames[|frames| - 1];
      TotalIsConcat(init);
      ConcatNext(init, last);
      assert init + [last] == frames;
    }
  }

  lemma {:induction false} SumNext(delays: seq<nat>, delay: nat)
    ensures Sum(delays + [delay]) == Sum(delays) + delay
  {
    if delays == [] {
      assert ([] + [delay])[1..] == [];
    } else {
      SumNext(delays[1..], delay);
      assert (delays + [delay])[1..] == delays[1..] + [delay];
    }
  }

  lemma {:induction false} TotalIsSum(delays: seq<nat>)
    ensures TotalDelay(delays) == Sum(delays)
  {
    if delays != [] {
      var init, last := delays[..|delays| - 1], delays[|delays| - 1];
      TotalIsSum(init);
      SumNext(init, last);
      assert init + [last] == delays;
    }
  }

  /** The bounds of a transaction, in numbers. */
  predicate WithinBounds(tx: Transaction) {
    && tx.id != "" && 1 <= |tx.frames| <= 64 && |tx.delays| == |tx.frames|
    && (forall i | 0 <= i < |tx.frames| :: |tx.frames[i]| <= 65_536)
    && |Concat(tx.frames)| <= 1_048_576 && Sum(tx.delays) <= 5_000
  }

  lemma WithinBoundsIff(tx: Transaction)
    ensures WithinBounds(tx) <==> Acceptable(tx)
  {
    TotalIsConcat(tx.frames);
    TotalIsSum(tx.delays);
  }

  /** A connection takes a transaction on if and only if it is idle and the transaction is within its bounds. */
  lemma AskedIff(w: World, c: ConnectionId, tx: Transaction)
    ensures HandlerOf(w, c).Idle? && WithinBounds(tx) ==> HandlerOf(Next(w, Ask(c, tx)), c) == Checked(tx)
    ensures !(HandlerOf(w, c).Idle? && WithinBounds(tx)) ==> Next(w, Ask(c, tx)) == w
  {
    WithinBoundsIff(tx);
  }

  /** The first `n` frames of a transaction in the log. */
  function FrameEvents(c: ConnectionId, id: Id, n: nat): seq<Event> {
    if n == 0 then [] else FrameEvents(c, id, n - 1) + [Frame(c, id, n - 1)]
  }

  lemma Extend(steps: seq<Step>, step: Step) returns (longer: seq<Step>)
    ensures longer == steps + [step] && Run(longer) == Next(Run(steps), step)
  {
    longer := steps + [step];
    assert longer[..|steps|] == steps;
  }

  /** `n` frames have been written since `w`. */
  predicate Halfway(w: World, w': World, c: ConnectionId, tx: Transaction, n: nat) {
    && n <= |tx.frames| && HandlerOf(w', c) == Writing(tx, n, |Concat(tx.frames[..n])|)
    && w'.delivered == w.delivered[tx.id := InProgress]
    && w'.log == w.log + [Moved(tx.id, InProgress)] + FrameEvents(c, tx.id, n)
  }

  lemma HalfwayNext(w: World, w': World, c: ConnectionId, tx: Transaction, n: nat)
    requires Halfway(w, w', c, tx, n) && n < |tx.frames|
    ensures Halfway(w, Next(w', WriteFrame(c, true, 0)), c, tx, n + 1)
  {
    ConcatNext(tx.frames[..n], tx.frames[n]);
    assert tx.frames[..n + 1] == tx.frames[..n] + [tx.frames[n]];
    var before := w.log + [Moved(tx.id, InProgress)];
    assert before + FrameEvents(c, tx.id, n) + [Frame(c, tx.id, n)] == before + FrameEvents(c, tx.id, n + 1);
  }

  lemma {:induction false} WritesAll(w: World, before: seq<Step>, c: ConnectionId, tx: Transaction, n: nat)
      returns (steps: seq<Step>)
    requires Halfway(w, Run(before), c, tx, n)
    ensures Halfway(w, Run(steps), c, tx, |tx.frames|)
    decreases |tx.frames| - n
  {
    steps := before;
    if n < |tx.frames| {
      HalfwayNext(w, Run(before), c, tx, n);
      steps := Extend(before, WriteFrame(c, true, 0));
      steps := WritesAll(w, steps, c, tx, n + 1);
    }
  }

  /**
   A delivery completes. In every run: an idle connection that is asked for a transaction within its bounds,
   with an id of at most 256 characters that is new, and fewer than 4096 ids known, can write every frame in
   order and is then done: the id is written, with the number of bytes of all its frames.
   */
  lemma DeliveryCompletes(before: seq<Step>, c: ConnectionId, tx: Transaction) returns (steps: seq<Step>)
    requires var w := Run(before);
             && HandlerOf(w, c).Idle? && WithinBounds(tx) && |tx.id| <= 256
             && tx.id !in w.delivered && |w.delivered| < 4096
    ensures var w, w' := Run(before), Run(steps);
            && HandlerOf(w', c).Idle? && w'.delivered == w.delivered[tx.id := Written(|Concat(tx.frames)|)]
            && w'.log == w.log + [Moved(tx.id, InProgress)] + FrameEvents(c, tx.id, |tx.frames|)
                 + [Moved(tx.id, Written(|Concat(tx.frames)|))]
  {
    var w := Run(before);
    AskedIff(w, c, tx);
    steps := Extend(before, Ask(c, tx));
    steps := Extend(steps, Look(c));
    steps := Extend(steps, Claim(c));
    var w1 := Run(steps);
    assert tx.frames[..0] == [];
    assert w1.log == w.log + [Moved(tx.id, InProgress)] + [];
    assert Halfway(w, w1, c, tx, 0);
    steps := WritesAll(w, steps, c, tx, 0);
    assert tx.frames[..|tx.frames|] == tx.frames;
    steps := Extend(steps, Finish(c));
  }
}
