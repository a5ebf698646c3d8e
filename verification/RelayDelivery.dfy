/**
 What a relay connection delivers, and the only reasons for which it closes: over a channel that loses,
 repeats and reorders nothing, everything arrives; and each way to close has one exact cause.
 */
module RelayDelivery {
  import opened Options
  import opened RelaySequence

  // ---------------------------------------------------------------- why an end closes

  function TotalLength(c: Config, queue: seq<Line>): nat {
    if queue == [] then 0 else c.length(queue[0]) + TotalLength(c, queue[1..])
  }

  lemma {:induction false} TotalLengthNext(c: Config, queue: seq<Line>, line: Line)
    ensures TotalLength(c, queue + [line]) == TotalLength(c, queue) + c.length(line)
  {
    if queue == [] {
      assert ([] + [line])[1..] == [];
    } else {
      TotalLengthNext(c, queue[1..], line);
      assert (queue + [line])[1..] == queue[1..] + [line];
    }
  }

  predicate BytesOk(c: Config, side: Side) {
    side.queuedBytes == TotalLength(c, side.queue)
  }

  lemma {:induction false} FlushBytes(c: Config, side: Side, n: nat)
    requires BytesOk(c, side)
    ensures BytesOk(c, Flush(c, side, n).0)
    decreases |side.queue|
  {
    if side.queue != [] && n > 0 { FlushBytes(c, Popped(c, side), n - 1); }
  }

  lemma SendBytes(c: Config, side: Side, body: Body, ready: bool)
    requires BytesOk(c, side)
    ensures BytesOk(c, Send(c, side, body, ready).0)
  {
    var line := EncodeNext(c, side, body);
    if line.Some? { TotalLengthNext(c, side.queue, line.value); }
  }

  lemma {:induction false} RunBytes(c: Config, connection: string, steps: seq<Step>, e: End)
    ensures BytesOk(c, PartyOf(Run(c, connection, steps), e).side)
  {
    if steps != [] {
      var init, last := steps[..|steps| - 1], steps[|steps| - 1];
      RunBytes(c, connection, init, e);
      var p := PartyOf(Run(c, connection, init), e);
      if last.end == e && last.Flushes? { FlushBytes(c, p.side, last.n); }
      if last.end == e && last.Sends? { SendBytes(c, p.side, last.body, last.ready); }
    }
  }

  /** The line that an end would send next, by what it has sequenced so far. */
  function NextLine(connection: string, p: Party, e: End, body: Body): Line {
    Line(connection, e.Initiator?, |p.sequenced| + 1, body)
  }

  /** The cause for an open end to close at this step, told by its history and its queue. */
  function Cause(c: Config, connection: string, w: World, step: Step, e: End): Option<Reason> {
    var p := PartyOf(w, e);
    if step.end != e then None
    else
      match step
      case Sends(_, body, ready) =>
        var line := NextLine(connection, p, e, body);
        if && c.encodes(line) && (p.side.queue != [] || !ready)
           && (|p.side.queue| + 1 > c.maxFrames || TotalLength(c, p.side.queue) + c.length(line) > c.maxBytes)
        then Some(QueueOverflow) else None
      case Flushes(_, _) => None
      case Gets(_, line) =>
        if line.connection != connection then Some(WrongConnection)
        else if !MayArrive(w, line) then None
        else if line.fromInitiator == e.Initiator? then Some(WrongDirection)
        else if line.number != |p.handed| + 1 then Some(SequenceViolation)
        else None
      case Fails(_) => Some(Ended)
  }

  predicate ClosesAt(c: Config, connection: string, steps: seq<Step>, e: End, i: nat, reason: Reason)
    requires i < |steps|
  {
    && At(c, connection, steps, i, e).side.closed.None?
    && Cause(c, connection, Run(c, connection, steps[..i]), steps[i], e) == Some(reason)
  }

  /** What each end is, whatever has happened. */
  lemma EndsAre(c: Config, connection: string, steps: seq<Step>, e: End)
    ensures var w := Run(c, connection, steps);
            var p := PartyOf(w, e);
            && p.side.connection == connection && p.side.initiator == e.Initiator?
            && w.initiator.side.connection == connection
            && |p.handed| == p.side.incomingSeq && |p.sequenced| == p.side.outgoingSeq
            && BytesOk(c, p.side)
  {
    RunOk(c, connection, steps);
    RunBytes(c, connection, steps, e);
    ConnectionStays(c, connection, steps);
  }

  lemma {:induction false} ConnectionStays(c: Config, connection: string, steps: seq<Step>)
    ensures var w := Run(c, connection, steps);
            w.initiator.side.connection == connection && w.responder.side.connection == connection
  {
    if steps != [] {
      var init, last := steps[..|steps| - 1], steps[|steps| - 1];
      ConnectionStays(c, connection, init);
      if last.Flushes? { FlushMoves(c, PartyOf(Run(c, connection, init), last.end).side, last.n); }
    }
  }

  /** One step closes an open end exactly for its cause. */
  lemma NextCloses(c: Config, connection: string, w: World, step: Step, e: End)
    requires var p := PartyOf(w, e);
             && p.side.connection == connection && p.side.initiator == e.Initiator?
             && w.initiator.side.connection == connection
             && |p.handed| == p.side.incomingSeq && |p.sequenced| == p.side.outgoingSeq && BytesOk(c, p.side)
             && p.side.closed.None?
    ensures PartyOf(Next(c, w, step), e).side.closed == Cause(c, connection, w, step, e)
  {
    if step.end == e && step.Flushes? { FlushMoves(c, PartyOf(w, e).side, step.n); }
  }

  lemma ClosesEarlier(c: Config, connection: string, steps: seq<Step>, init: seq<Step>, e: End, i: nat, reason: Reason)
    requires steps != [] && init == steps[..|steps| - 1] && i < |init|
    ensures ClosesAt(c, connection, steps, e, i, reason) == ClosesAt(c, connection, init, e, i, reason)
  {
    assert steps[..i] == init[..i];
  }

  ghost predicate Closed(c: Config, connection: string, steps: seq<Step>, e: End, reason: Reason) {
    exists i :: 0 <= i < |steps| && ClosesAt(c, connection, steps, e, i, reason)
  }

  lemma ClosedBefore(c: Config, connection: string, steps: seq<Step>, init: seq<Step>, e: End, reason: Reason)
    requires steps != [] && init == steps[..|steps| - 1] && Closed(c, connection, steps, e, reason)
    ensures Closed(c, connection, init, e, reason) || ClosesAt(c, connection, steps, e, |init|, reason)
  {
    var i :| 0 <= i < |steps| && ClosesAt(c, connection, steps, e, i, reason);
    if i < |init| { ClosesEarlier(c, connection, steps, init, e, i, reason); }
  }

  lemma ClosedAfter(c: Config, connection: string, steps: seq<Step>, init: seq<Step>, e: End, reason: Reason)
    requires steps != [] && init == steps[..|steps| - 1] && Closed(c, connection, init, e, reason)
    ensures Closed(c, connection, steps, e, reason)
  {
    var i :| 0 <= i < |init| && ClosesAt(c, connection, init, e, i, reason);
    ClosesEarlier(c, connection, steps, init, e, i, reason);
  }

  lemma ClosedNext(c: Config, connection: string, steps: seq<Step>, init: seq<Step>, e: End, reason: Reason)
    requires steps != [] && init == steps[..|steps| - 1]
    ensures Closed(c, connection, steps, e, reason)
            <==> Closed(c, connection, init, e, reason) || ClosesAt(c, connection, steps, e, |init|, reason)
  {
    if Closed(c, connection, steps, e, reason) { ClosedBefore(c, connection, steps, init, e, reason); }
    if Closed(c, connection, init, e, reason) { ClosedAfter(c, connection, steps, init, e, reason); }
  }

  /**
   Each way to close has one exact cause. In every run an end is closed with a reason if and only if at
   some step, while it was still open: a line of another connection reached it; or one of its own
   direction; or one of its peer's whose number is not one more than what it has handed on; or a line
   had to be queued beyond the frames or bytes allowed; or it was closed from outside.
   */
  lemma {:induction false} ClosedIff(c: Config, connection: string, steps: seq<Step>, e: End, reason: Reason)
    ensures PartyOf(Run(c, connection, steps), e).side.closed == Some(reason)
            <==> exists i :: 0 <= i < |steps| && ClosesAt(c, connection, steps, e, i, reason)
  {
    if steps != [] {
      var init, last := steps[..|steps| - 1], steps[|steps| - 1];
      var w := Run(c, connection, init);
      ClosedIff(c, connection, init, e, reason);
      ClosedNext(c, connection, steps, init, e, reason);
      assert steps[..|init|] == init;
      if PartyOf(w, e).side.closed.Some? {
        NextWhenClosed(c, w, last, e);
      } else {
        EndsAre(c, connection, init, e);
        NextCloses(c, connection, w, last, e);
      }
      assert Closed(c, connection, init, e, reason) <==> PartyOf(w, e).side.closed == Some(reason);
    }
  }

  // ---------------------------------------------------------------- flushing

  /**
   A flush is exact: with a duplex that pushes back on the `n + 1`th line, just so many lines leave the
   queue, from its head; one that does not push back is given the whole queue.
   */
  lemma {:induction false} FlushIsExact(c: Config, side: Side, n: nat)
    ensures var (side', lines) := Flush(c, side, n);
            if n < |side.queue| then lines == side.queue[..n + 1] && side'.queue == side.queue[n + 1..]
            else lines == side.queue && side'.queue == []
    decreases |side.queue|
  {
    if side.queue != [] && n > 0 { FlushIsExact(c, Popped(c, side), n - 1); }
  }

  // ---------------------------------------------------------------- a faultless channel

  /** How many lines have reached this end. */
  function Arrivals(steps: seq<Step>, e: End): nat {
    if steps == [] then 0
    else Arrivals(steps[..|steps| - 1], e) + if steps[|steps| - 1].Gets? && steps[|steps| - 1].end == e then 1 else 0
  }

  /** What reaches this end is what its peer has written, each line once and in that order. */
  ghost predicate Faultless(c: Config, connection: string, steps: seq<Step>, e: End) {
    forall i | 0 <= i < |steps| && steps[i].Gets? && steps[i].end == e ::
      var written := At(c, connection, steps, i, Other(e)).written;
      Arrivals(steps[..i], e) < |written| && steps[i].line == written[Arrivals(steps[..i], e)]
  }

  lemma FaultlessBefore(c: Config, connection: string, steps: seq<Step>, init: seq<Step>, e: End)
    requires steps != [] && init == steps[..|steps| - 1] && Faultless(c, connection, steps, e)
    ensures Faultless(c, connection, init, e)
    ensures var last := steps[|steps| - 1];
            last.Gets? && last.end == e ==>
              var written := PartyOf(Run(c, connection, init), Other(e)).written;
              Arrivals(init, e) < |written| && last.line == written[Arrivals(init, e)]
  {
    forall i | 0 <= i < |init| && init[i].Gets? && init[i].end == e
      ensures var written := At(c, connection, init, i, Other(e)).written;
              Arrivals(init[..i], e) < |written| && init[i].line == written[Arrivals(init[..i], e)]
    {
      assert steps[i] == init[i] && steps[..i] == init[..i];
    }
    assert steps[..|init|] == init;
  }

  /** Not closed from outside, and no queue ran over. */
  predicate Undisturbed(p: Party) {
    p.side.closed != Some(Ended) && p.side.closed != Some(QueueOverflow)
  }

  ghost predicate Arrived(c: Config, connection: string, steps: seq<Step>, e: End) {
    var p, peer := PartyOf(Run(c, connection, steps), e), PartyOf(Run(c, connection, steps), Other(e));
    p.side.closed.None? && Arrivals(steps, e) <= |peer.written| && p.handed == peer.written[..Arrivals(steps, e)]
  }

  /** The next line of the peer is handed on. */
  lemma NextArrives(c: Config, w: World, e: End, line: Line, k: nat)
    requires Ok(w) && PartyOf(w, e).side.closed.None?
    requires var p, peer := PartyOf(w, e), PartyOf(w, Other(e));
             peer.written <= peer.sequenced && k < |peer.written| && p.handed == peer.written[..k]
             && line == peer.written[k]
    ensures var p' := PartyOf(Next(c, w, Gets(e, line)), e);
            var peer := PartyOf(w, Other(e));
            p'.side.closed.None? && p'.handed == peer.written[..k + 1]
  {
    var peer := PartyOf(w, Other(e));
    assert line == peer.sequenced[k] && line in peer.written;
    assert peer.written[..k + 1] == peer.written[..k] + [line];
  }

  /** Any other step leaves an end that stays undisturbed open, with the same lines handed on. */
  lemma OtherStep(c: Config, w: World, e: End, step: Step)
    requires PartyOf(w, e).side.closed.None? && !(step.Gets? && step.end == e)
    ensures var p, p' := PartyOf(w, e), PartyOf(Next(c, w, step), e);
            p'.handed == p.handed && (Undisturbed(p') ==> p'.side.closed.None?)
    ensures PartyOf(w, Other(e)).written <= PartyOf(Next(c, w, step), Other(e)).written
  {
    if step.Flushes? { FlushMoves(c, PartyOf(w, step.end).side, step.n); }
  }

  lemma {:induction false} FaultlessArrives(c: Config, connection: string, steps: seq<Step>, e: End)
    requires Faultless(c, connection, steps, e) && !FlushedAfterPushback(c, connection, steps, Other(e))
    requires Undisturbed(PartyOf(Run(c, connection, steps), e))
    ensures Arrived(c, connection, steps, e)
  {
    if steps != [] {
      var init, last := steps[..|steps| - 1], steps[|steps| - 1];
      var w := Run(c, connection, init);
      FaultlessBefore(c, connection, steps, init, e);
      FlushUnfoldsInRun(c, connection, steps, init, Other(e));
      if PartyOf(w, e).side.closed.Some? { NextWhenClosed(c, w, last, e); }
      FaultlessArrives(c, connection, init, e);
      WrittenOnceIff(c, connection, init, Other(e));
      RunOk(c, connection, init);
      if last.Gets? && last.end == e {
        NextArrives(c, w, e, last.line, Arrivals(init, e));
        NextKeepsWritten(c, w, last, Other(e));
      } else {
        OtherStep(c, w, e, last);
      }
    }
  }

  /**
   Everything arrives. In every run over a channel that brings an end its peer's lines each once and in
   order, with no flush after a push-back and the end neither closed from outside nor by an overflow of
   its own queue: it is still open and has handed on exactly the lines that reached it. When all that was
   written has reached it, that is all its peer wrote; and if the peer is open, was never pushed back on
   and has nothing queued, all that it ever sequenced.
   */
  lemma EverythingArrives(c: Config, connection: string, steps: seq<Step>, e: End)
    requires Faultless(c, connection, steps, e) && !FlushedAfterPushback(c, connection, steps, Other(e))
    requires Undisturbed(PartyOf(Run(c, connection, steps), e))
    ensures var p, peer := PartyOf(Run(c, connection, steps), e), PartyOf(Run(c, connection, steps), Other(e));
            && p.side.closed.None? && |p.handed| == Arrivals(steps, e) && p.handed <= peer.written
            && (Arrivals(steps, e) == |peer.written| ==> p.handed == peer.written)
            && (&& Arrivals(steps, e) == |peer.written| && peer.side.closed.None? && peer.side.queue == []
                && !WasPushedBack(c, connection, steps, Other(e))
                ==> p.handed == peer.sequenced)
  {
    var peer := PartyOf(Run(c, connection, steps), Other(e));
    FaultlessArrives(c, connection, steps, e);
    RunInStep(c, connection, steps, Other(e));
    assert peer.written + [] == peer.written;
  }
}
