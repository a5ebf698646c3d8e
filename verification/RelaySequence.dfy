/**
 The sequenced frames of one relay connection. Whatever the channel drops, duplicates or reorders,
 each side hands on a prefix of what its peer sequenced.
 */
module RelaySequence {
  import opened Options

  type Body = string

  /** A line on the wire: connection, direction, sequence number and what it carries. */
  datatype Line = Line(connection: string, fromInitiator: bool, number: nat, body: Body)

  /** `Ended` is every way to close that this part does not decide: a timeout, the transport, `close` itself. */
  datatype Reason = WrongConnection | WrongDirection | SequenceViolation | QueueOverflow | Ended

  /** One end of a connected relay. */
  datatype Side = Side(
    connection: string,
    initiator: bool,
    outgoingSeq: nat,
    incomingSeq: nat,
    queue: seq<Line>,
    queuedBytes: nat,
    closed: Option<Reason>)

  /** The limits of the outgoing queue and the strict encoder, which refuses some frames. */
  datatype Config = Config(maxFrames: nat, maxBytes: nat, encodes: Line -> bool, length: Line -> nat)

  /** `encodeNextSequencedRelayFrame`: the number is only used up if the frame can be encoded. */
  function EncodeNext(c: Config, side: Side, body: Body): Option<Line> {
    var line := Line(side.connection, side.initiator, side.outgoingSeq + 1, body);
    if c.encodes(line) then Some(line) else None
  }

  /** `fail`: the first reason stays. */
  function Fail(side: Side, reason: Reason): Side {
    if side.closed.Some? then side else side.(closed := Some(reason))
  }

  predicate HasRoom(c: Config, side: Side, line: Line) {
    |side.queue| + 1 <= c.maxFrames && side.queuedBytes + c.length(line) <= c.maxBytes
  }

  function Enqueue(c: Config, side: Side, line: Line): Side {
    if !HasRoom(c, side, line) then Fail(side, QueueOverflow)
    else side.(queue := side.queue + [line], queuedBytes := side.queuedBytes + c.length(line))
  }

  /**
   `writeFrame`: behind a queue the line waits; otherwise it is written, and queued as well if the duplex
   pushes back.
   */
  function Write(c: Config, side: Side, line: Line, ready: bool): (Side, seq<Line>) {
    if side.closed.Some? then (side, [])
    else if side.queue != [] then (Enqueue(c, side, line), [])
    else if ready then (side, [line])
    else (Enqueue(c, side, line), [line])
  }

  /** `sendSequencedFrame`. */
  function Send(c: Config, side: Side, body: Body, ready: bool): (Side, seq<Line>) {
    match EncodeNext(c, side, body)
    case None => (side, [])
    case Some(line) => Write(c, side.(outgoingSeq := line.number), line, ready)
  }

  /** `flushQueue`: writes until the queue is empty or the duplex pushes back on one of the next `n` lines. */
  function Flush(c: Config, side: Side, n: nat): (Side, seq<Line>)
    decreases |side.queue|
  {
    if side.queue == [] then (side, [])
    else
      var line := side.queue[0];
      if n == 0 then (Popped(c, side), [line])
      else
        var (last, lines) := Flush(c, Popped(c, side), n - 1);
        (last, [line] + lines)
  }

  /** The first line is out of the queue. */
  function Popped(c: Config, side: Side): Side
    requires side.queue != []
  {
    var length := c.length(side.queue[0]);
    side.(queue := side.queue[1..],
          queuedBytes := if length <= side.queuedBytes then side.queuedBytes - length else 0)
  }

  /** `onApplicationFrame`, up to the point where the frame is handed on. */
  function Receive(side: Side, line: Line): (Side, Option<Line>) {
    if side.closed.Some? then (side, None)
    else if line.connection != side.connection then (Fail(side, WrongConnection), None)
    else if line.fromInitiator == side.initiator then (Fail(side, WrongDirection), None)
    else if line.number != side.incomingSeq + 1 then (Fail(side, SequenceViolation), None)
    else (side.(incomingSeq := line.number), Some(line))
  }

  class RelayConnection {
    const connection: string
    const initiator: bool
    var outgoingSeq: nat
    var incomingSeq: nat
    var queue: seq<Line>
    var queuedBytes: nat
    var closed: Option<Reason>

    constructor (connection: string, initiator: bool)
      ensures Now() == Side(connection, initiator, 0, 0, [], 0, None)
    {
      this.connection, this.initiator := connection, initiator;
      outgoingSeq, incomingSeq, queue, queuedBytes, closed := 0, 0, [], 0, None;
    }

    function Now(): Side
      reads this
    {
      Side(connection, initiator, outgoingSeq, incomingSeq, queue, queuedBytes, closed)
    }

    /** `fail`, which also destroys the duplex. */
    method FailWith(reason: Reason)
      modifies this
      ensures Now() == Fail(old(Now()), reason)
    {
      if closed.Some? { return; }
      closed := Some(reason);
    }

    method EnqueueLine(c: Config, line: Line)
      modifies this
      ensures Now() == Enqueue(c, old(Now()), line)
    {
      if |queue| + 1 > c.maxFrames || queuedBytes + c.length(line) > c.maxBytes {
        FailWith(QueueOverflow);
        return;
      }
      queue := queue + [line];
      queuedBytes := queuedBytes + c.length(line);
    }

    method WriteFrame(c: Config, line: Line, ready: bool) returns (written: seq<Line>)
      modifies this
      ensures (Now(), written) == Write(c, old(Now()), line, ready)
    {
      written := [];
      if closed.Some? { return; }
      if |queue| > 0 {
        EnqueueLine(c, line);
        return;
      }
      written := [line];
      if !ready { EnqueueLine(c, line); }
    }

    method SendSequencedFrame(c: Config, body: Body, ready: bool) returns (written: seq<Line>)
      modifies this
      ensures (Now(), written) == Send(c, old(Now()), body, ready)
    {
      written := [];
      var line := EncodeNext(c, Now(), body);
      if line.None? { return; }
      outgoingSeq := line.value.number;
      written := WriteFrame(c, line.value, ready);
    }

    method FlushQueue(c: Config, n: nat) returns (written: seq<Line>)
      modifies this
      ensures (Now(), written) == Flush(c, old(Now()), n)
    {
      written := [];
      ghost var goal := Flush(c, Now(), n);
      var left := n;
      while |queue| > 0
        invariant goal.0 == Flush(c, Now(), left).0 && goal.1 == written + Flush(c, Now(), left).1
        invariant Now() == old(Now()).(queue := queue, queuedBytes := queuedBytes)
        decreases |queue|
      {
        FlushUnfolds(c, Now(), left, written);
        var next := queue[0];
        queue := queue[1..];
        queuedBytes := if c.length(next) <= queuedBytes then queuedBytes - c.length(next) else 0;
        written := written + [next];
        if left == 0 { return; }
        left := left - 1;
      }
      assert written + [] == written;
    }

    method OnApplicationFrame(line: Line) returns (handed: Option<Line>)
      modifies this
      ensures (Now(), handed) == Receive(old(Now()), line)
    {
      handed := None;
      if closed.Some? { return; }
      if line.connection != connection {
        FailWith(WrongConnection);
        return;
      }
      if line.fromInitiator == initiator {
        FailWith(WrongDirection);
        return;
      }
      if line.number != incomingSeq + 1 {
        FailWith(SequenceViolation);
        return;
      }
      incomingSeq := line.number;
      handed := Some(line);
    }
  }

  lemma FlushUnfolds(c: Config, side: Side, n: nat, written: seq<Line>)
    requires side.queue != []
    ensures var more := written + [side.queue[0]];
            if n == 0 then Flush(c, side, n).0 == Popped(c, side) && written + Flush(c, side, n).1 == more
            else
              && Flush(c, side, n).0 == Flush(c, Popped(c, side), n - 1).0
              && written + Flush(c, side, n).1 == more + Flush(c, Popped(c, side), n - 1).1
  {
    if n > 0 {
      var rest := Flush(c, Popped(c, side), n - 1).1;
      assert written + ([side.queue[0]] + rest) == written + [side.queue[0]] + rest;
    }
  }

  // ---------------------------------------------------------------- two ends and a bad channel

  datatype End = Initiator | Responder

  /** One end, with everything it ever sequenced, wrote to its duplex and handed on. */
  datatype Party = Party(side: Side, sequenced: seq<Line>, written: seq<Line>, handed: seq<Line>)

  datatype World = World(initiator: Party, responder: Party)

  /**
   The channel may deliver any line that was ever written, as often and as late as it likes, or never; and
   lines of other connections.
   */
  datatype Step =
    | Sends(end: End, body: Body, ready: bool)
    | Flushes(end: End, n: nat)
    | Gets(end: End, line: Line)
    | Fails(end: End)

  function PartyOf(w: World, e: End): Party {
    if e.Initiator? then w.initiator else w.responder
  }

  function With(w: World, e: End, p: Party): World {
    if e.Initiator? then w.(initiator := p) else w.(responder := p)
  }

  function Other(e: End): End {
    if e.Initiator? then Responder else Initiator
  }

  function Sending(c: Config, p: Party, body: Body, ready: bool): Party {
    var (side, lines) := Send(c, p.side, body, ready);
    var line := EncodeNext(c, p.side, body);
    p.(side := side, written := p.written + lines,
       sequenced := if line.Some? then p.sequenced + [line.value] else p.sequenced)
  }

  /** The duplex of a closed end is destroyed: whatever it is still given goes nowhere. */
  function Flushing(c: Config, p: Party, n: nat): Party {
    var (side, lines) := Flush(c, p.side, n);
    p.(side := side, written := if p.side.closed.Some? then p.written else p.written + lines)
  }

  function Getting(p: Party, line: Line): Party {
    var (side, l) := Receive(p.side, line);
    p.(side := side, handed := if l.Some? then p.handed + [l.value] else p.handed)
  }

  predicate MayArrive(w: World, line: Line) {
    line in w.initiator.written || line in w.responder.written || line.connection != w.initiator.side.connection
  }

  function Next(c: Config, w: World, step: Step): World {
    var p := PartyOf(w, step.end);
    match step
    case Sends(e, body, ready) => With(w, e, Sending(c, p, body, ready))
    case Flushes(e, n) => With(w, e, Flushing(c, p, n))
    case Gets(e, line) => if MayArrive(w, line) then With(w, e, Getting(p, line)) else w
    case Fails(e) => With(w, e, p.(side := Fail(p.side, Ended)))
  }

  function Opening(connection: string, initiator: bool): Party {
    Party(Side(connection, initiator, 0, 0, [], 0, None), [], [], [])
  }

  function Run(c: Config, connection: string, steps: seq<Step>): World {
    if steps == [] then World(Opening(connection, true), Opening(connection, false))
    else Next(c, Run(c, connection, steps[..|steps| - 1]), steps[|steps| - 1])
  }

  /** One end as it is after the first `i` steps. */
  function At(c: Config, connection: string, steps: seq<Step>, i: nat, e: End): Party
    requires i <= |steps|
  {
    PartyOf(Run(c, connection, steps[..i]), e)
  }

  // ---------------------------------------------------------------- the receiver sees a prefix

  /** Sequence numbers are 1, 2, 3, ... and never used twice; only sequenced lines are queued and written. */
  predicate Numbered(p: Party) {
    && |p.sequenced| == p.side.outgoingSeq
    && (forall i | 0 <= i < |p.sequenced| ::
          && p.sequenced[i].number == i + 1 && p.sequenced[i].fromInitiator == p.side.initiator
          && p.sequenced[i].connection == p.side.connection)
    && (forall l | l in p.side.queue :: l in p.sequenced)
    && (forall l | l in p.written :: l in p.sequenced)
  }

  predicate SeesAPrefix(p: Party, peer: Party) {
    |p.handed| == p.side.incomingSeq && p.handed <= peer.sequenced
  }

  predicate Ok(w: World) {
    && w.initiator.side.initiator && !w.responder.side.initiator
    && w.initiator.side.connection == w.responder.side.connection
    && Numbered(w.initiator) && Numbered(w.responder)
    && SeesAPrefix(w.initiator, w.responder) && SeesAPrefix(w.responder, w.initiator)
  }

  predicate SameEnd(p: Party, p': Party) {
    && p'.side.initiator == p.side.initiator && p'.side.connection == p.side.connection
    && p'.side.incomingSeq == p.side.incomingSeq && p'.handed == p.handed && p.sequenced <= p'.sequenced
  }

  lemma SendKeeps(c: Config, p: Party, body: Body, ready: bool)
    requires Numbered(p)
    ensures Numbered(Sending(c, p, body, ready)) && SameEnd(p, Sending(c, p, body, ready))
  {
    var p' := Sending(c, p, body, ready);
    assert forall l | l in p.sequenced :: l in p'.sequenced;
  }

  lemma {:induction false} FlushMoves(c: Config, side: Side, n: nat)
    ensures var (side', lines) := Flush(c, side, n);
            && lines + side'.queue == side.queue && (side.queue != [] ==> lines != [])
            && side' == side.(queue := side'.queue, queuedBytes := side'.queuedBytes)
    decreases |side.queue|
  {
    if side.queue != [] && n > 0 { FlushMoves(c, Popped(c, side), n - 1); }
  }

  lemma FlushKeeps(c: Config, p: Party, n: nat)
    requires Numbered(p)
    ensures Numbered(Flushing(c, p, n)) && SameEnd(p, Flushing(c, p, n))
  {
    var (side, lines) := Flush(c, p.side, n);
    FlushMoves(c, p.side, n);
    assert forall l | l in lines + side.queue :: l in p.sequenced;
  }

  /** Whatever line arrives, the receiver hands on its peer's next frame or nothing. */
  lemma GetKeeps(p: Party, peer: Party, line: Line)
    requires Numbered(p) && Numbered(peer) && SeesAPrefix(p, peer) && p.side.initiator != peer.side.initiator
    requires line in p.sequenced || line in peer.sequenced || line.connection != p.side.connection
    ensures var p' := Getting(p, line);
            && Numbered(p') && SeesAPrefix(p', peer) && p'.sequenced == p.sequenced
            && p'.side.initiator == p.side.initiator && p'.side.connection == p.side.connection
  {
    if Receive(p.side, line).1.Some? {
      assert line in peer.sequenced;
      var i :| 0 <= i < |peer.sequenced| && peer.sequenced[i] == line;
      assert i == |p.handed|;
    }
  }

  lemma NextOk(c: Config, w: World, step: Step)
    requires Ok(w)
    ensures Ok(Next(c, w, step))
  {
    var p, peer := PartyOf(w, step.end), PartyOf(w, Other(step.end));
    match step
    case Sends(e, body, ready) => SendKeeps(c, p, body, ready);
    case Flushes(e, n) => FlushKeeps(c, p, n);
    case Gets(e, line) => if MayArrive(w, line) { GetKeeps(p, peer, line); }
    case Fails(e) =>
  }

  lemma {:induction false} RunOk(c: Config, connection: string, steps: seq<Step>)
    ensures Ok(Run(c, connection, steps))
  {
    if steps != [] {
      RunOk(c, connection, steps[..|steps| - 1]);
      NextOk(c, Run(c, connection, steps[..|steps| - 1]), steps[|steps| - 1]);
    }
  }

  /**
   The receiver sees a prefix. In every run over a channel that drops, duplicates and reorders lines:
   what either end hands on is a prefix of what its peer sequenced; the `i`th line that an end sequenced
   carries number `i`, so a frame that was refused used none; and only sequenced lines are ever written.
   */
  lemma ReceiverSeesAPrefix(c: Config, connection: string, steps: seq<Step>, e: End)
    ensures var p, peer := PartyOf(Run(c, connection, steps), e), PartyOf(Run(c, connection, steps), Other(e));
            && p.handed <= peer.sequenced
            && |p.sequenced| == p.side.outgoingSeq
            && (forall i | 0 <= i < |p.sequenced| :: p.sequenced[i].number == i + 1)
            && (forall l | l in p.written :: l in p.sequenced)
  {
    RunOk(c, connection, steps);
  }

  lemma RunFurther(c: Config, connection: string, steps: seq<Step>, more: seq<Step>)
    requires more != []
    ensures Run(c, connection, steps + more)
              == Next(c, Run(c, connection, steps + more[..|more| - 1]), more[|more| - 1])
  {
    LastOfJoin(steps, more);
    RunLast(c, connection, steps + more, steps + more[..|more| - 1], more[|more| - 1]);
  }

  lemma LastOfJoin<T>(left: seq<T>, right: seq<T>)
    requires right != []
    ensures var all := left + right;
            all[..|all| - 1] == left + right[..|right| - 1] && all[|all| - 1] == right[|right| - 1]
  {
  }

  lemma RunLast(c: Config, connection: string, all: seq<Step>, init: seq<Step>, last: Step)
    requires all != [] && init == all[..|all| - 1] && last == all[|all| - 1]
    ensures Run(c, connection, all) == Next(c, Run(c, connection, init), last)
  {
  }

  // ---------------------------------------------------------------- closed is final

  lemma NextWhenClosed(c: Config, w: World, step: Step, e: End)
    requires PartyOf(w, e).side.closed.Some?
    ensures var p, p' := PartyOf(w, e), PartyOf(Next(c, w, step), e);
            p'.side.closed == p.side.closed && p'.handed == p.handed && p'.written == p.written
  {
    if step.Flushes? { FlushMoves(c, PartyOf(w, step.end).side, step.n); }
  }

  /**
   Closed is final. Once an end has closed, in every continuation of the run its reason stays, it hands
   nothing on and it writes nothing, queued lines included.
   */
  lemma {:induction false} ClosedIsFinal(c: Config, connection: string, steps: seq<Step>, more: seq<Step>, e: End)
    requires PartyOf(Run(c, connection, steps), e).side.closed.Some?
    ensures var p, p' := PartyOf(Run(c, connection, steps), e), PartyOf(Run(c, connection, steps + more), e);
            p'.side.closed == p.side.closed && p'.handed == p.handed && p'.written == p.written
    decreases |more|
  {
    if more == [] {
      assert steps + more == steps;
    } else {
      var init, last := more[..|more| - 1], more[|more| - 1];
      ClosedIsFinal(c, connection, steps, init, e);
      RunFurther(c, connection, steps, more);
      NextWhenClosed(c, Run(c, connection, steps + init), last, e);
    }
  }

  // ---------------------------------------------------------------- written once

  predicate Distinct(lines: seq<Line>) {
    forall i, j | 0 <= i < j < |lines| :: lines[i] != lines[j]
  }

  /** The end writes on an empty queue, and the duplex takes the line but pushes back: the line is queued too. */
  predicate PushesBack(c: Config, p: Party, step: Step, e: End) {
    && step.Sends? && step.end == e && !step.ready && p.side.closed.None? && p.side.queue == []
    && EncodeNext(c, p.side, step.body).Some? && HasRoom(c, p.side, EncodeNext(c, p.side, step.body).value)
  }

  predicate FlushesOpen(p: Party, step: Step, e: End) {
    step.Flushes? && step.end == e && p.side.closed.None?
  }

  /** The same of step `i` of a run. */
  predicate PushedBackAt(c: Config, connection: string, steps: seq<Step>, e: End, i: nat)
    requires i < |steps|
  {
    PushesBack(c, At(c, connection, steps, i, e), steps[i], e)
  }

  predicate FlushedAt(c: Config, connection: string, steps: seq<Step>, e: End, i: nat)
    requires i < |steps|
  {
    FlushesOpen(At(c, connection, steps, i, e), steps[i], e)
  }

  ghost predicate WasPushedBack(c: Config, connection: string, steps: seq<Step>, e: End) {
    exists i :: 0 <= i < |steps| && PushedBackAt(c, connection, steps, e, i)
  }

  /** The duplex pushed back on a line, and the queue was flushed later, before the end closed. */
  ghost predicate FlushedAfterPushback(c: Config, connection: string, steps: seq<Step>, e: End) {
    exists i, j :: 0 <= i < j < |steps|
                   && PushedBackAt(c, connection, steps, e, i) && FlushedAt(c, connection, steps, e, j)
  }

  /** An earlier step of a run is that step of its beginning. */
  lemma StepOfBeginning(c: Config, connection: string, steps: seq<Step>, init: seq<Step>, e: End, i: nat)
    requires steps != [] && init == steps[..|steps| - 1] && i < |steps|
    ensures i < |init| ==>
              && PushedBackAt(c, connection, steps, e, i) == PushedBackAt(c, connection, init, e, i)
              && FlushedAt(c, connection, steps, e, i) == FlushedAt(c, connection, init, e, i)
    ensures i == |init| ==> At(c, connection, steps, i, e) == PartyOf(Run(c, connection, init), e)
  {
    assert i < |init| ==> steps[..i] == init[..i];
  }

  lemma PushbackUnfolds(c: Config, connection: string, steps: seq<Step>, init: seq<Step>, e: End)
    requires steps != [] && init == steps[..|steps| - 1]
    ensures WasPushedBack(c, connection, steps, e) <==>
            WasPushedBack(c, connection, init, e)
            || PushesBack(c, PartyOf(Run(c, connection, init), e), steps[|init|], e)
  {
    StepOfBeginning(c, connection, steps, init, e, |init|);
    if WasPushedBack(c, connection, steps, e) {
      var i :| 0 <= i < |steps| && PushedBackAt(c, connection, steps, e, i);
      StepOfBeginning(c, connection, steps, init, e, i);
    }
    if WasPushedBack(c, connection, init, e) {
      var i :| 0 <= i < |init| && PushedBackAt(c, connection, init, e, i);
      StepOfBeginning(c, connection, steps, init, e, i);
      assert PushedBackAt(c, connection, steps, e, i);
    }
    assert PushedBackAt(c, connection, steps, e, |init|)
        <==> PushesBack(c, PartyOf(Run(c, connection, init), e), steps[|init|], e);
  }

  lemma FlushUnfoldsInRun(c: Config, connection: string, steps: seq<Step>, init: seq<Step>, e: End)
    requires steps != [] && init == steps[..|steps| - 1]
    ensures FlushedAfterPushback(c, connection, steps, e) <==>
            FlushedAfterPushback(c, connection, init, e)
            || (WasPushedBack(c, connection, init, e)
                && FlushesOpen(PartyOf(Run(c, connection, init), e), steps[|init|], e))
  {
    StepOfBeginning(c, connection, steps, init, e, |init|);
    assert FlushedAt(c, connection, steps, e, |init|)
        <==> FlushesOpen(PartyOf(Run(c, connection, init), e), steps[|init|], e);
    if FlushedAfterPushback(c, connection, steps, e) {
      var i, j :| 0 <= i < j < |steps|
                  && PushedBackAt(c, connection, steps, e, i) && FlushedAt(c, connection, steps, e, j);
      StepOfBeginning(c, connection, steps, init, e, i);
      StepOfBeginning(c, connection, steps, init, e, j);
      assert PushedBackAt(c, connection, init, e, i);
    }
    if FlushedAfterPushback(c, connection, init, e) {
      var i, j :| 0 <= i < j < |init|
                  && PushedBackAt(c, connection, init, e, i) && FlushedAt(c, connection, init, e, j);
      StepOfBeginning(c, connection, steps, init, e, i);
      StepOfBeginning(c, connection, steps, init, e, j);
      assert PushedBackAt(c, connection, steps, e, i) && FlushedAt(c, connection, steps, e, j);
    }
    if WasPushedBack(c, connection, init, e) {
      var i :| 0 <= i < |init| && PushedBackAt(c, connection, init, e, i);
      StepOfBeginning(c, connection, steps, init, e, i);
      assert PushedBackAt(c, connection, steps, e, i);
    }
  }

  /**
   As long as nothing is written twice: what was written and what is queued make up what was sequenced. A
   line that the duplex pushed back on is both the last one written and the first one queued.
   */
  predicate InStep(p: Party, pushedBack: bool) {
    if p.side.closed.Some? then p.written <= p.sequenced
    else if pushedBack then
      && p.side.queue != [] && p.written != [] && p.written[|p.written| - 1] == p.side.queue[0]
      && p.written + p.side.queue[1..] == p.sequenced
    else p.written + p.side.queue == p.sequenced
  }

  lemma SendInStep(c: Config, p: Party, body: Body, ready: bool, pushedBack: bool, e: End)
    requires InStep(p, pushedBack)
    ensures InStep(Sending(c, p, body, ready), pushedBack || PushesBack(c, p, Sends(e, body, ready), e))
  {
    if EncodeNext(c, p.side, body).Some? && p.side.closed.None? {
      if p.side.queue == [] {
        SendPastEmptyQueue(c, p, body, ready, e);
      } else {
        SendBehindQueue(c, p, body, ready, pushedBack);
      }
    }
  }

  lemma SendPastEmptyQueue(c: Config, p: Party, body: Body, ready: bool, e: End)
    requires InStep(p, false) && p.side.closed.None? && p.side.queue == [] && EncodeNext(c, p.side, body).Some?
    ensures InStep(Sending(c, p, body, ready), PushesBack(c, p, Sends(e, body, ready), e))
  {
    var line := EncodeNext(c, p.side, body).value;
    assert p.written == p.sequenced;
    assert [line][1..] == [] && p.written + [line] + [] == p.sequenced + [line];
  }

  lemma SendBehindQueue(c: Config, p: Party, body: Body, ready: bool, pushedBack: bool)
    requires InStep(p, pushedBack) && p.side.closed.None? && p.side.queue != [] && EncodeNext(c, p.side, body).Some?
    ensures InStep(Sending(c, p, body, ready), pushedBack)
  {
    var line, queue := EncodeNext(c, p.side, body).value, p.side.queue;
    assert p.written + [] == p.written;
    assert (queue + [line])[1..] == queue[1..] + [line];
    assert p.written + queue[1..] + [line] == p.written + (queue[1..] + [line]);
    assert p.written + queue + [line] == p.written + (queue + [line]);
  }

  lemma FlushInStep(c: Config, p: Party, n: nat, pushedBack: bool)
    requires InStep(p, pushedBack) && (pushedBack ==> p.side.closed.Some?)
    ensures InStep(Flushing(c, p, n), pushedBack)
  {
    var (side, lines) := Flush(c, p.side, n);
    FlushMoves(c, p.side, n);
    assert p.written + lines + side.queue == p.written + (lines + side.queue);
  }

  /** Flushing a queue whose first line has been written already writes it again. */
  lemma FlushRepeats(c: Config, p: Party, n: nat)
    requires InStep(p, true) && p.side.closed.None?
    ensures !Distinct(Flushing(c, p, n).written)
  {
    var (side, lines) := Flush(c, p.side, n);
    FlushMoves(c, p.side, n);
    assert (lines + side.queue)[0] == lines[0];
    var all, k := p.written + lines, |p.written|;
    assert all[k - 1] == p.written[k - 1] && all[k] == lines[0];
  }

  lemma GetInStep(p: Party, line: Line, pushedBack: bool)
    requires InStep(p, pushedBack)
    ensures InStep(Getting(p, line), pushedBack)
  {
    if p.side.closed.None? && pushedBack { assert p.written + p.side.queue[1..] == p.sequenced; }
  }

  lemma NextInStep(c: Config, w: World, step: Step, e: End, pushedBack: bool)
    requires InStep(PartyOf(w, e), pushedBack) && (pushedBack ==> !FlushesOpen(PartyOf(w, e), step, e))
    ensures InStep(PartyOf(Next(c, w, step), e), pushedBack || PushesBack(c, PartyOf(w, e), step, e))
  {
    var p := PartyOf(w, e);
    if step.end == e {
      match step
      case Sends(_, body, ready) => SendInStep(c, p, body, ready, pushedBack, e);
      case Flushes(_, n) => FlushInStep(c, p, n, pushedBack);
      case Gets(_, line) => GetInStep(p, line, pushedBack);
      case Fails(_) =>
    }
  }

  lemma NextKeepsWritten(c: Config, w: World, step: Step, e: End)
    ensures PartyOf(w, e).written <= PartyOf(Next(c, w, step), e).written
  {
  }

  lemma NumberedIsDistinct(p: Party)
    requires Numbered(p) && p.written <= p.sequenced
    ensures Distinct(p.written)
  {
  }

  ghost predicate InStepOrTwice(c: Config, connection: string, steps: seq<Step>, e: End) {
    var p := PartyOf(Run(c, connection, steps), e);
    if FlushedAfterPushback(c, connection, steps, e) then !Distinct(p.written)
    else InStep(p, WasPushedBack(c, connection, steps, e))
  }

  lemma InStepOrTwiceNext(c: Config, connection: string, steps: seq<Step>, init: seq<Step>, e: End)
    requires steps != [] && init == steps[..|steps| - 1] && InStepOrTwice(c, connection, init, e)
    ensures InStepOrTwice(c, connection, steps, e)
  {
    var w, last := Run(c, connection, init), steps[|steps| - 1];
    PushbackUnfolds(c, connection, steps, init, e);
    FlushUnfoldsInRun(c, connection, steps, init, e);
    if FlushedAfterPushback(c, connection, init, e) {
      NextKeepsWritten(c, w, last, e);
    } else if FlushedAfterPushback(c, connection, steps, e) {
      FlushRepeats(c, PartyOf(w, e), last.n);
    } else {
      NextInStep(c, w, last, e, WasPushedBack(c, connection, init, e));
    }
  }

  lemma {:induction false} RunInStep(c: Config, connection: string, steps: seq<Step>, e: End)
    ensures InStepOrTwice(c, connection, steps, e)
  {
    if steps != [] {
      RunInStep(c, connection, steps[..|steps| - 1], e);
      InStepOrTwiceNext(c, connection, steps, steps[..|steps| - 1], e);
    }
  }

  /**
   Back-pressure, exactly. In every run an end writes each line at most once, and then in sequence, if and
   only if the duplex never pushed back on a line that was written past an empty queue with the queue
   flushed later, before the end closed.
   */
  lemma WrittenOnceIff(c: Config, connection: string, steps: seq<Step>, e: End)
    ensures var p := PartyOf(Run(c, connection, steps), e);
            && (Distinct(p.written) <==> !FlushedAfterPushback(c, connection, steps, e))
            && (Distinct(p.written) ==> p.written <= p.sequenced)
  {
    var p := PartyOf(Run(c, connection, steps), e);
    RunInStep(c, connection, steps, e);
    RunOk(c, connection, steps);
    if !FlushedAfterPushback(c, connection, steps, e) {
      WrittenInSequence(p, WasPushedBack(c, connection, steps, e));
      NumberedIsDistinct(p);
    }
  }

  lemma WrittenInSequence(p: Party, pushedBack: bool)
    requires InStep(p, pushedBack)
    ensures p.written <= p.sequenced
  {
  }

  lemma Extend(c: Config, connection: string, steps: seq<Step>, step: Step) returns (longer: seq<Step>)
    ensures longer == steps + [step] && Run(c, connection, longer) == Next(c, Run(c, connection, steps), step)
  {
    longer := steps + [step];
    assert longer[..|steps|] == steps;
  }

  /**
   What comes of it: over a channel that loses, repeats and reorders nothing, a line that was pushed back
   on is handed on once and then closes its receiver with a sequence violation.
   */
  lemma PushbackClosesThePeer(c: Config, connection: string, body: Body) returns (line: Line, steps: seq<Step>)
    requires EncodeNext(c, Opening(connection, true).side, body).Some?
    requires HasRoom(c, Opening(connection, true).side, EncodeNext(c, Opening(connection, true).side, body).value)
    ensures var w := Run(c, connection, steps);
            && steps == [Sends(Initiator, body, false), Flushes(Initiator, 0), Gets(Responder, line),
               Gets(Responder, line)]
            && w.initiator.sequenced == [line] && w.initiator.written == [line, line]
            && w.responder.handed == [line] && w.responder.side.closed == Some(SequenceViolation)
  {
    line := EncodeNext(c, Opening(connection, true).side, body).value;
    steps := [];
    steps := Extend(c, connection, steps, Sends(Initiator, body, false));
    assert Run(c, connection, steps).initiator.written == [line];
    steps := Extend(c, connection, steps, Flushes(Initiator, 0));
    assert Run(c, connection, steps).initiator.written == [line, line];
    steps := Extend(c, connection, steps, Gets(Responder, line));
    assert Run(c, connection, steps).responder.handed == [line];
    steps := Extend(c, connection, steps, Gets(Responder, line));
  }

  // ---------------------------------------------------------------- refused frames

  /** A frame that cannot be encoded leaves no trace: every run is the same with and without it. */
  lemma {:induction false} RefusedFrameIsNotThere(c: Config, connection: string, before: seq<Step>, step: Step,
      more: seq<Step>)
    requires step.Sends? && EncodeNext(c, PartyOf(Run(c, connection, before), step.end).side, step.body).None?
    ensures Run(c, connection, before + [step] + more) == Run(c, connection, before + more)
    decreases |more|
  {
    if more == [] {
      assert before + [step] + more == before + [step] && before + more == before;
      RunFurther(c, connection, before, [step]);
      assert before + [step][..0] == before;
    } else {
      var init := more[..|more| - 1];
      RefusedFrameIsNotThere(c, connection, before, step, init);
      RunFurther(c, connection, before + [step], more);
      RunFurther(c, connection, before, more);
    }
  }
}
