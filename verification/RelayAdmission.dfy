/** How many relay sessions the local server lets in: a cap on handshakes, one session per peer. */
module RelayAdmission {
  import opened Options

  type Peer = string
  type SocketId = nat

  const MAX_AUTHENTICATED_SESSIONS_PER_PEER := 1
  const MAX_HANDSHAKING_SESSIONS := 8

  datatype Counts = Counts(handshaking: nat, authenticated: map<Peer, nat>)

  function Of(c: Counts, peer: Peer): nat {
    if peer in c.authenticated then c.authenticated[peer] else 0
  }

  predicate MayHandshake(c: Counts) {
    c.handshaking < MAX_HANDSHAKING_SESSIONS
  }

  predicate MayAdmit(c: Counts, peer: Peer) {
    Of(c, peer) < MAX_AUTHENTICATED_SESSIONS_PER_PEER
  }

  function HandshakeAdmitted(c: Counts): Counts {
    c.(handshaking := c.handshaking + 1)
  }

  function PeerAdmitted(c: Counts, peer: Peer): Counts {
    c.(authenticated := c.authenticated[peer := Of(c, peer) + 1])
  }

  function HandshakeReleased(c: Counts): Counts {
    c.(handshaking := if c.handshaking > 0 then c.handshaking - 1 else 0)
  }

  function PeerReleased(c: Counts, peer: Peer): Counts {
    c.(authenticated := if Of(c, peer) > 1 then c.authenticated[peer := Of(c, peer) - 1] else c.authenticated - {peer})
  }

  class RelayAdmission {
    var handshaking: nat
    var authenticated: map<Peer, nat>

    constructor ()
      ensures Now() == Counts(0, map[])
    {
      handshaking, authenticated := 0, map[];
    }

    function Now(): Counts
      reads this
    {
      Counts(handshaking, authenticated)
    }

    method AdmitHandshake() returns (ok: bool)
      modifies this
      ensures (ok <==> MayHandshake(old(Now()))) && Now() == if ok then HandshakeAdmitted(old(Now())) else old(Now())
    {
      if handshaking >= MAX_HANDSHAKING_SESSIONS { return false; }
      handshaking := handshaking + 1;
      ok := true;
    }

    method AdmitPeer(peer: Peer) returns (ok: bool)
      modifies this
      ensures (ok <==> MayAdmit(old(Now()), peer)) && Now() == if ok then PeerAdmitted(old(Now()), peer) else old(Now())
    {
      var n := if peer in authenticated then authenticated[peer] else 0;
      if n >= MAX_AUTHENTICATED_SESSIONS_PER_PEER { return false; }
      authenticated := authenticated[peer := n + 1];
      ok := true;
    }

    method ReleaseHandshake()
      modifies this
      ensures Now() == HandshakeReleased(old(Now()))
    {
      handshaking := if handshaking > 0 then handshaking - 1 else 0;
    }

    method ReleasePeer(peer: Peer)
      modifies this
      ensures Now() == PeerReleased(old(Now()), peer)
    {
      var n := if peer in authenticated then authenticated[peer] else 0;
      if n > 1 {
        authenticated := authenticated[peer := n - 1];
      } else {
        authenticated := authenticated - {peer};
      }
    }
  }

  // ---------------------------------------------------------------- sockets

  /** The two flags that `serve` keeps for a socket. */
  datatype Socket = Socket(handshakeHeld: bool, admitted: Option<Peer>)

  datatype World = World(counts: Counts, sockets: map<SocketId, Socket>)

  datatype Step =
    | Connects(id: SocketId)
    /** The relay connection reports that it is connected, as often as it likes. */
    | Reports(id: SocketId, peer: Peer)
    /** The connection or its socket closes: each of them may say so. */
    | Closes(id: SocketId)

  function ReleaseAll(w: World, id: SocketId): World
    requires id in w.sockets
  {
    var s := w.sockets[id];
    var counts := if s.handshakeHeld then HandshakeReleased(w.counts) else w.counts;
    World(if s.admitted.Some? then PeerReleased(counts, s.admitted.value)
        else counts, w.sockets[id := Socket(false, None)])
  }

  function ReportStep(w: World, id: SocketId, peer: Peer): World
    requires id in w.sockets
  {
    var s := w.sockets[id];
    if s.admitted.Some? then w
    else if !MayAdmit(w.counts, peer) then ReleaseAll(w, id)
    else
      var counts := PeerAdmitted(w.counts, peer);
      World(if s.handshakeHeld then HandshakeReleased(counts) else counts, w.sockets[id := Socket(false, Some(peer))])
  }

  function Next(w: World, step: Step): World {
    match step
    case Connects(id) =>
      if id !in w.sockets && MayHandshake(w.counts)
          then World(HandshakeAdmitted(w.counts), w.sockets[id := Socket(true, None)]) else w
    case Reports(id, peer) => if id in w.sockets then ReportStep(w, id, peer) else w
    case Closes(id) => if id in w.sockets then ReleaseAll(w, id) else w
  }

  function Run(steps: seq<Step>): World {
    if steps == [] then World(Counts(0, map[]), map[]) else Next(Run(steps[..|steps| - 1]), steps[|steps| - 1])
  }

  function Holding(sockets: map<SocketId, Socket>): set<SocketId> {
    set id | id in sockets && sockets[id].handshakeHeld
  }

  function Serving(sockets: map<SocketId, Socket>, peer: Peer): set<SocketId> {
    set id | id in sockets && sockets[id].admitted == Some(peer)
  }

  /** The counters are exact: they count the sockets that hold a handshake and those admitted for each peer. */
  ghost predicate Exact(w: World) {
    && w.counts.handshaking == |Holding(w.sockets)|
    && (forall p: Peer :: Of(w.counts, p) == |Serving(w.sockets, p)|)
    && (forall p | p in w.counts.authenticated :: w.counts.authenticated[p] > 0)
  }

  lemma SocketChanges(sockets: map<SocketId, Socket>, id: SocketId, s: Socket)
    ensures Holding(sockets[id := s]) == if s.handshakeHeld then Holding(sockets) + {id} else Holding(sockets) - {id}
    ensures forall p: Peer ::
              Serving(sockets[id := s], p) == if s.admitted == Some(p) then Serving(sockets, p) + {id}
              else Serving(sockets, p) - {id}
  {
  }

  lemma ReleaseIsExact(w: World, id: SocketId)
    requires Exact(w) && id in w.sockets
    ensures Exact(ReleaseAll(w, id))
  {
    var w' := ReleaseAll(w, id);
    HandshakesAfter(w, id, Socket(false, None));
    forall p: Peer ensures Of(w'.counts, p) == |Serving(w'.sockets, p)| { ReleasedCount(w, id, p); }
  }

  lemma ReleasedCount(w: World, id: SocketId, p: Peer)
    requires Exact(w) && id in w.sockets
    ensures Of(ReleaseAll(w, id).counts, p) == |Serving(ReleaseAll(w, id).sockets, p)|
  {
    var s := w.sockets[id];
    SocketChanges(w.sockets, id, Socket(false, None));
    var before := Serving(w.sockets, p);
    assert Of(w.counts, p) == |before|;
    if s.admitted == Some(p) {
      assert id in before;
      assert |before - {id}| == |before| - 1;
    } else {
      assert before - {id} == before;
    }
  }

  lemma NextIsExact(w: World, step: Step)
    requires Exact(w)
    ensures Exact(Next(w, step))
  {
    match step
    case Connects(id) =>
      if id !in w.sockets && MayHandshake(w.counts) {
        SocketChanges(w.sockets, id, Socket(true, None));
        assert forall p: Peer :: id !in Serving(w.sockets, p);
        assert forall p: Peer :: Serving(w.sockets, p) - {id} == Serving(w.sockets, p);
      }
    case Reports(id, peer) => if id in w.sockets { ReportIsExact(w, id, peer); }
    case Closes(id) => if id in w.sockets { ReleaseIsExact(w, id); }
  }

  lemma ReportIsExact(w: World, id: SocketId, peer: Peer)
    requires Exact(w) && id in w.sockets
    ensures Exact(ReportStep(w, id, peer))
  {
    if w.sockets[id].admitted.None? {
      if MayAdmit(w.counts, peer) { AdmitIsExact(w, id, peer); } else { ReleaseIsExact(w, id); }
    }
  }

  lemma AdmitIsExact(w: World, id: SocketId, peer: Peer)
    requires Exact(w) && id in w.sockets && w.sockets[id].admitted.None? && MayAdmit(w.counts, peer)
    ensures Exact(ReportStep(w, id, peer))
  {
    HandshakesAfter(w, id, Socket(false, Some(peer)));
    forall p: Peer
      ensures Of(ReportStep(w, id, peer).counts, p) == |Serving(ReportStep(w, id, peer).sockets, p)|
    {
      AdmittedCount(w, id, peer, p);
    }
  }

  lemma HandshakesAfter(w: World, id: SocketId, s: Socket)
    requires Exact(w) && id in w.sockets && !s.handshakeHeld
    ensures |Holding(w.sockets[id := s])|
              == if w.sockets[id].handshakeHeld then w.counts.handshaking - 1 else w.counts.handshaking
  {
    SocketChanges(w.sockets, id, s);
    assert w.sockets[id].handshakeHeld <==> id in Holding(w.sockets);
  }

  lemma AdmittedCount(w: World, id: SocketId, peer: Peer, p: Peer)
    requires Exact(w) && id in w.sockets && w.sockets[id].admitted.None? && MayAdmit(w.counts, peer)
    ensures Of(ReportStep(w, id, peer).counts, p) == |Serving(ReportStep(w, id, peer).sockets, p)|
  {
    SocketChanges(w.sockets, id, Socket(false, Some(peer)));
    assert id !in Serving(w.sockets, p);
    assert Serving(w.sockets, p) - {id} == Serving(w.sockets, p);
  }

  lemma {:induction false} RunIsExact(steps: seq<Step>)
    ensures Exact(Run(steps))
  {
    if steps == [] {
      assert Holding(map[]) == {} && forall p: Peer :: Serving(map[], p) == {};
    } else {
      RunIsExact(steps[..|steps| - 1]);
      NextIsExact(Run(steps[..|steps| - 1]), steps[|steps| - 1]);
    }
  }

  ghost predicate Bounded(c: Counts) {
    c.handshaking <= MAX_HANDSHAKING_SESSIONS && forall p: Peer :: Of(c, p) <= MAX_AUTHENTICATED_SESSIONS_PER_PEER
  }

  lemma NextIsBounded(w: World, step: Step)
    requires Bounded(w.counts)
    ensures Bounded(Next(w, step).counts)
  {
    var w' := Next(w, step);
    forall p: Peer ensures Of(w'.counts, p) <= MAX_AUTHENTICATED_SESSIONS_PER_PEER {
      assert Of(w.counts, p) <= MAX_AUTHENTICATED_SESSIONS_PER_PEER;
    }
  }

  lemma {:induction false} RunIsBounded(steps: seq<Step>)
    ensures Bounded(Run(steps).counts)
  {
    if steps != [] {
      RunIsBounded(steps[..|steps| - 1]);
      NextIsBounded(Run(steps[..|steps| - 1]), steps[|steps| - 1]);
    }
  }

  /** In every run, at most eight sockets are still in their handshake and no peer has two admitted ones. */
  lemma AdmissionIsBounded(steps: seq<Step>)
    ensures var w := Run(steps);
            && |Holding(w.sockets)| <= MAX_HANDSHAKING_SESSIONS
            && forall p: Peer :: |Serving(w.sockets, p)| <= MAX_AUTHENTICATED_SESSIONS_PER_PEER
  {
    RunIsExact(steps);
    RunIsBounded(steps);
    var w := Run(steps);
    forall p: Peer ensures |Serving(w.sockets, p)| <= MAX_AUTHENTICATED_SESSIONS_PER_PEER {
      assert Of(w.counts, p) == |Serving(w.sockets, p)|;
    }
  }

  /**
   A slot is given back once: in every run, whatever other sockets do in between, saying again
   that a socket has closed changes nothing.
   */
  lemma {:induction false} ReleasedOnce(steps: seq<Step>, id: SocketId, between: seq<Step>)
    requires forall i | 0 <= i < |between| :: between[i].id == id ==> between[i].Closes?
    ensures var w := Run(steps + [Closes(id)] + between);
            && (id in w.sockets ==> w.sockets[id] == Socket(false, None))
            && Run(steps + [Closes(id)] + between + [Closes(id)]) == w
    decreases |between|
  {
    var before := steps + [Closes(id)];
    var all := before + between;
    assert (all + [Closes(id)])[..|all|] == all;
    if between == [] {
      assert all == before && before[..|steps|] == steps;
    } else {
      var init := between[..|between| - 1];
      ReleasedOnce(steps, id, init);
      assert all[..|all| - 1] == before + init;
      assert all[|all| - 1] == between[|between| - 1];
    }
  }

  /**
   Admission is exact. In every run: a new socket is let in if and only if fewer than eight are in their
   handshake; and the first report of a socket that it is connected is accepted if and only if its peer has
   no admitted socket. Either way its handshake slot is free again; a refused socket holds nothing.
   */
  lemma AdmittedIff(steps: seq<Step>, id: SocketId, peer: Peer)
    ensures var w := Run(steps);
            var joined, reported := Next(w, Connects(id)), Next(w, Reports(id, peer));
            && (id !in w.sockets ==>
                  (id in joined.sockets <==> |set i | i in w.sockets && w.sockets[i].handshakeHeld| < 8)
                  && (id in joined.sockets ==> joined.sockets == w.sockets[id := Socket(true, None)]))
            && (id in w.sockets && w.sockets[id].admitted.None? ==>
                  reported.sockets == w.sockets[id := Socket(false,
                    if exists i :: i in w.sockets && w.sockets[i].admitted == Some(peer) then None else Some(peer))])
  {
    var w := Run(steps);
    RunIsExact(steps);
    assert Holding(w.sockets) == set i | i in w.sockets && w.sockets[i].handshakeHeld;
    assert Of(w.counts, peer) == |Serving(w.sockets, peer)|;
    if i :| i in w.sockets && w.sockets[i].admitted == Some(peer) {
      assert i in Serving(w.sockets, peer);
    } else {
      assert Serving(w.sockets, peer) == {};
    }
  }
}
